/** AutoCryptoScanner of auto_crypto_scanner.py: a buy/sell classification of each
    listed coin by its 24h change, volume and rank, with a pump/dump override for
    extreme moves, and the rule deciding whether a batch of signals is worth an alert. */
module AutoScanner {
  import opened Common

  /** A coin as this scanner's fetcher builds it. `volume` is None for a null volume;
      `rank` is None when the record has no rank key, which `token.get('rank', 999)`
      reads as 999. */
  datatype AutoToken = AutoToken(name: string, symbol: string, price: real, volume: Option<real>,
                                 change24h: real, marketCap: real, rank: Option<int>)

  datatype SignalKind =
    | StrongBuy | MediumBuy | WeakBuy
    | StrongSell | MediumSell | BearishWarning
    | PossiblePump | PossibleDump

  /** One entry of `signals` (its reason text and timestamp are not modelled). */
  datatype AutoSignal = AutoSignal(token: AutoToken, kind: SignalKind, strength: int)

  const MIN_VOLUME: real := 100000.0
  const MAX_RANK: int := 100
  const DEFAULT_RANK: int := 999
  const EXTREME_MOVE: real := 15.0

  function RankOf(t: AutoToken): int
  {
    if t.rank.Some? then t.rank.value else DEFAULT_RANK
  }

  /** The pre-filter: a volume that is present, non-zero and at least 100000, and a rank
      within the top 100. */
  predicate Listed(t: AutoToken)
  {
    t.volume.Some? && t.volume.value != 0.0 && !(t.volume.value < MIN_VOLUME) && !(RankOf(t) > MAX_RANK)
  }

  function Abs(x: real): real { if x < 0.0 then -x else x }

  /** The buy/sell if/elif chain: buy tiers first, then sell tiers. */
  function TierSignal(change: real, volume: real, rank: int): Option<(SignalKind, int)>
  {
    if change > 5.0 && volume > 10000000.0 then Some((StrongBuy, 3))
    else if change > 3.0 && volume > 5000000.0 then Some((MediumBuy, 2))
    else if change > 1.5 && volume > 2000000.0 && rank <= 50 then Some((WeakBuy, 1))
    else if change < -5.0 && volume > 5000000.0 then Some((StrongSell, 3))
    else if change < -3.0 && volume > 2000000.0 then Some((MediumSell, 2))
    else if change < -2.0 && rank <= 20 then Some((BearishWarning, 1))
    else None
  }

  /** What `analyze_signals` decides for one coin: nothing for a coin the pre-filter
      skips, else the chain's outcome, overridden by a pump or dump warning of strength 3
      when the 24h move exceeds 15% either way. */
  function Classify(t: AutoToken): (r: Option<(SignalKind, int)>)
    ensures r.Some? ==> r.value.1 in {1, 2, 3}
  {
    if !Listed(t) then None
    else if Abs(t.change24h) > EXTREME_MOVE then
      Some((if t.change24h > 0.0 then PossiblePump else PossibleDump, 3))
    else TierSignal(t.change24h, t.volume.value, RankOf(t))
  }

  /** The signal list for the given coins, in input order. */
  function SignalsOf(tokens: seq<AutoToken>): seq<AutoSignal>
  {
    if tokens == [] then []
    else
      var last := tokens[|tokens| - 1];
      SignalsOf(tokens[..|tokens| - 1])
      + match Classify(last)
        case Some(p) => [AutoSignal(last, p.0, p.1)]
        case None => []
  }

  function TokenOf(s: AutoSignal): AutoToken { s.token }

  predicate Signalled(t: AutoToken) { Classify(t).Some? }

  /** `analyze_signals`: for each coin, skip it or work out its signal type and strength
      step by step, and append the signal when there is one. */
  method AnalyzeSignals(tokens: seq<AutoToken>) returns (signals: seq<AutoSignal>)
    ensures signals == SignalsOf(tokens)
  {
    signals := [];
    var i := 0;
    while i < |tokens|
      invariant 0 <= i <= |tokens|
      invariant signals == SignalsOf(tokens[..i])
    {
      var token := tokens[i];
      assert tokens[..i + 1][..i] == tokens[..i];
      var change := token.change24h;
      var rank := if token.rank.Some? then token.rank.value else DEFAULT_RANK;
      if token.volume.None? || token.volume.value == 0.0 || token.volume.value < MIN_VOLUME {
        i := i + 1;
        continue;
      }
      var volume := token.volume.value;
      if rank > MAX_RANK {
        i := i + 1;
        continue;
      }
      var signalType: Option<SignalKind> := None;
      var strength := 0;
      if change > 5.0 && volume > 10000000.0 {
        signalType, strength := Some(StrongBuy), 3;
      } else if change > 3.0 && volume > 5000000.0 {
        signalType, strength := Some(MediumBuy), 2;
      } else if change > 1.5 && volume > 2000000.0 && rank <= 50 {
        signalType, strength := Some(WeakBuy), 1;
      } else if change < -5.0 && volume > 5000000.0 {
        signalType, strength := Some(StrongSell), 3;
      } else if change < -3.0 && volume > 2000000.0 {
        signalType, strength := Some(MediumSell), 2;
      } else if change < -2.0 && rank <= 20 {
        signalType, strength := Some(BearishWarning), 1;
      }
      if Abs(change) > EXTREME_MOVE {
        if change > 0.0 {
          signalType, strength := Some(PossiblePump), 3;
        } else {
          signalType, strength := Some(PossibleDump), 3;
        }
      }
      if signalType.Some? {
        signals := signals + [AutoSignal(token, signalType.value, strength)];
      }
      i := i + 1;
    }
    assert tokens[..|tokens|] == tokens;
  }

  /** One signal per signalled coin and none for the others, in input order; every
      strength is 1, 2 or 3. */
  lemma {:induction false} SignalsOfSpec(tokens: seq<AutoToken>)
    ensures MapSeq(SignalsOf(tokens), TokenOf) == Filter(tokens, Signalled)
    ensures forall s :: s in SignalsOf(tokens) ==> Classify(s.token) == Some((s.kind, s.strength))
    ensures forall s :: s in SignalsOf(tokens) ==> s.strength in {1, 2, 3}
  {
    if tokens != [] {
      var prefix, last := tokens[..|tokens| - 1], tokens[|tokens| - 1];
      SignalsOfSpec(prefix);
      var added := match Classify(last)
                   case Some(p) => [AutoSignal(last, p.0, p.1)]
                   case None => [];
      MapSeqConcat(SignalsOf(prefix), added, TokenOf);
      assert MapSeq(added, TokenOf) == if Signalled(last) then [last] else [];
    }
  }

  /** The pre-filter: a missing, zero or small volume, a rank beyond 100 and a missing
      rank all mean no signal. */
  lemma SkipRule(t: AutoToken)
    ensures t.volume.None? ==> Classify(t).None?
    ensures t.volume.Some? && t.volume.value < MIN_VOLUME ==> Classify(t).None?
    ensures t.rank.None? ==> Classify(t).None?
    ensures t.rank.Some? && t.rank.value > MAX_RANK ==> Classify(t).None?
  {
  }

  /** A move beyond 15% either way on a listed coin is always a pump (rise) or dump
      (fall) warning of strength 3, whatever tier matched before. */
  lemma ExtremeMoveOverrides(t: AutoToken)
    requires Listed(t) && Abs(t.change24h) > EXTREME_MOVE
    ensures Classify(t) == Some((if t.change24h > 0.0 then PossiblePump else PossibleDump, 3))
    ensures t.change24h > 0.0 <==> t.change24h > EXTREME_MOVE
  {
  }

  /** Without an extreme move, buy signals need a rise above 1.5% and sell signals a fall
      below -2%; strength 3 means a strong buy or sell, or an extreme move. */
  lemma DirectionRule(t: AutoToken)
    requires Classify(t).Some?
    ensures Classify(t).value.0 in {StrongBuy, MediumBuy, WeakBuy} ==> 1.5 < t.change24h <= EXTREME_MOVE
    ensures Classify(t).value.0 in {StrongSell, MediumSell, BearishWarning} ==> -EXTREME_MOVE <= t.change24h < -2.0
    ensures Classify(t).value.1 == 3 <==> Classify(t).value.0 in {StrongBuy, StrongSell, PossiblePump, PossibleDump}
  {
  }

  // ---------------------------------------------------------------------------
  // should_send_alert
  // ---------------------------------------------------------------------------

  function CountStrength(signals: seq<AutoSignal>, k: int): nat
  {
    |Filter(signals, (s: AutoSignal) => s.strength == k)|
  }

  /** `should_send_alert`: never for no signals; otherwise when one signal is strong or
      at least three are medium. */
  function ShouldSendAlert(signals: seq<AutoSignal>): bool
  {
    if signals == [] then false
    else CountStrength(signals, 3) > 0 || CountStrength(signals, 2) >= 3
  }

  /** An alert goes out iff some signal has strength 3 or at least three have strength 2;
      weak signals alone never send one. */
  lemma ShouldSendAlertRule(signals: seq<AutoSignal>)
    ensures ShouldSendAlert(signals) <==>
              (exists i :: 0 <= i < |signals| && signals[i].strength == 3) || CountStrength(signals, 2) >= 3
    ensures (forall s :: s in signals ==> s.strength == 1) ==> !ShouldSendAlert(signals)
  {
    var strong := Filter(signals, (s: AutoSignal) => s.strength == 3);
    if exists i :: 0 <= i < |signals| && signals[i].strength == 3 {
      var i :| 0 <= i < |signals| && signals[i].strength == 3;
      assert signals[i] in strong;
    }
    if strong != [] {
      assert strong[0] in signals;
    }
    if forall s :: s in signals ==> s.strength == 1 {
      var medium := Filter(signals, (s: AutoSignal) => s.strength == 2);
      if medium != [] {
        assert medium[0] in signals;
      }
    }
  }
}
