/** The token list tools of main.py: `filter_tokens`, which keeps the tokens meeting every
    criterion supplied, and the buy/sell conditions of `analyze_tokens_for_signals`. */
module TokenFilter {
  import opened Common

  /** The `Token` dataclass. */
  datatype Token = Token(name: string, price: real, volume: int,
                         priceChange24h: Option<real>, movingAvg: Option<real>)

  /** The optional arguments of `filter_tokens`; None is an argument left at its default. */
  datatype Criteria = Criteria(minPrice: Option<real>, nameContains: Option<string>,
                               minVolume: Option<int>, customFilter: Option<Token -> bool>)

  const NoCriteria: Criteria := Criteria(None, None, None, None)

  /** `str.lower` on ASCII letters (other characters are kept as they are). */
  function LowerChar(ch: char): char
  {
    if 'A' <= ch <= 'Z' then (ch as int - 'A' as int + 'a' as int) as char else ch
  }

  function Lower(s: string): (r: string)
    ensures |r| == |s|
    ensures forall i :: 0 <= i < |s| ==> r[i] == LowerChar(s[i])
  {
    seq(|s|, i requires 0 <= i < |s| => LowerChar(s[i]))
  }

  /** Lower-casing twice is lower-casing once. */
  lemma LowerIdempotent(s: string)
    ensures Lower(Lower(s)) == Lower(s)
  {
  }

  /** Python's `needle in hay` on strings: needle occurs at some position of hay. */
  function Contains(needle: string, hay: string): bool
    decreases |hay|
  {
    (|needle| <= |hay| && hay[..|needle|] == needle)
    || (|hay| > 0 && Contains(needle, hay[1..]))
  }

  /** needle occurs in hay at offset i. */
  predicate OccursAt(needle: string, hay: string, i: int)
  {
    0 <= i <= |hay| - |needle| && hay[i..i + |needle|] == needle
  }

  /** Contains means an occurrence at some offset. */
  lemma {:induction false} ContainsAt(needle: string, hay: string)
    ensures Contains(needle, hay) <==> exists i :: OccursAt(needle, hay, i)
    decreases |hay|
  {
    if |needle| <= |hay| && hay[..|needle|] == needle {
      assert OccursAt(needle, hay, 0);
    }
    if |hay| > 0 {
      ContainsAt(needle, hay[1..]);
      if Contains(needle, hay[1..]) {
        var j :| OccursAt(needle, hay[1..], j);
        assert hay[1..][j..j + |needle|] == hay[j + 1..j + 1 + |needle|];
        assert OccursAt(needle, hay, j + 1);
      }
      if exists i :: OccursAt(needle, hay, i) {
        var i :| OccursAt(needle, hay, i);
        if i > 0 {
          assert hay[1..][i - 1..i - 1 + |needle|] == hay[i..i + |needle|];
          assert OccursAt(needle, hay[1..], i - 1);
        }
      }
    } else if exists i :: OccursAt(needle, hay, i) {
      var i :| OccursAt(needle, hay, i);
      assert i == 0;
    }
  }

  /** The empty string is in every string. */
  lemma ContainsEmpty(hay: string)
    ensures Contains("", hay)
  {
    assert hay[..0] == "";
  }

  /** A token passes `filter_tokens` when no supplied criterion rejects it. */
  predicate Keeps(c: Criteria, t: Token)
  {
    !(c.minPrice.Some? && t.price < c.minPrice.value)
    && !(c.nameContains.Some? && !Contains(Lower(c.nameContains.value), Lower(t.name)))
    && !(c.minVolume.Some? && t.volume < c.minVolume.value)
    && !(c.customFilter.Some? && !c.customFilter.value(t))
  }

  /** `filter_tokens`: a loop that skips each token some criterion rejects and appends
      the rest. */
  method FilterTokens(tokens: seq<Token>, c: Criteria) returns (result: seq<Token>)
    ensures result == Filter(tokens, t => Keeps(c, t))
  {
    result := [];
    var i := 0;
    while i < |tokens|
      invariant 0 <= i <= |tokens|
      invariant result == Filter(tokens[..i], t => Keeps(c, t))
    {
      var token := tokens[i];
      assert tokens[..i + 1][..i] == tokens[..i];
      if c.minPrice.Some? && token.price < c.minPrice.value {
        i := i + 1;
        continue;
      }
      if c.nameContains.Some? && !Contains(Lower(c.nameContains.value), Lower(token.name)) {
        i := i + 1;
        continue;
      }
      if c.minVolume.Some? && token.volume < c.minVolume.value {
        i := i + 1;
        continue;
      }
      if c.customFilter.Some? && !c.customFilter.value(token) {
        i := i + 1;
        continue;
      }
      result := result + [token];
      i := i + 1;
    }
    assert tokens[..|tokens|] == tokens;
  }

  /** The result is an order-preserving subsequence of the input, and a token is in it iff
      it is in the input and meets every supplied criterion: price at least min_price, the
      name holding name_contains regardless of case, volume at least min_volume, and the
      custom filter accepting it. */
  lemma FilterTokensSpec(tokens: seq<Token>, c: Criteria)
    ensures IsSubsequence(Filter(tokens, t => Keeps(c, t)), tokens)
    ensures forall t :: t in Filter(tokens, t => Keeps(c, t)) <==>
              t in tokens
              && (c.minPrice.Some? ==> t.price >= c.minPrice.value)
              && (c.nameContains.Some? ==>
                    exists i :: OccursAt(Lower(c.nameContains.value), Lower(t.name), i))
              && (c.minVolume.Some? ==> t.volume >= c.minVolume.value)
              && (c.customFilter.Some? ==> c.customFilter.value(t))
  {
    FilterIsSubsequence(tokens, t => Keeps(c, t));
    forall t: Token | c.nameContains.Some?
      ensures Contains(Lower(c.nameContains.value), Lower(t.name))
              <==> exists i :: OccursAt(Lower(c.nameContains.value), Lower(t.name), i)
    {
      ContainsAt(Lower(c.nameContains.value), Lower(t.name));
    }
  }

  /** With every criterion left out the input comes back unchanged. */
  lemma NoCriteriaIsIdentity(tokens: seq<Token>)
    ensures Filter(tokens, t => Keeps(NoCriteria, t)) == tokens
  {
    FilterAll(tokens, t => Keeps(NoCriteria, t));
  }

  /** Filtering twice with the same criteria is filtering once. */
  lemma FilterTokensIdempotent(tokens: seq<Token>, c: Criteria)
    ensures Filter(Filter(tokens, t => Keeps(c, t)), t => Keeps(c, t)) == Filter(tokens, t => Keeps(c, t))
  {
    FilterIdempotent(tokens, t => Keeps(c, t));
  }

  /** The name criterion ignores case: a pattern and its lower-case form select the same
      tokens, and an empty pattern selects every name. */
  lemma NameMatchIgnoresCase(c: Criteria, t: Token, pattern: string)
    ensures Keeps(c.(nameContains := Some(pattern)), t) == Keeps(c.(nameContains := Some(Lower(pattern))), t)
    ensures Keeps(c.(nameContains := Some("")), t) == Keeps(c.(nameContains := None), t)
  {
    LowerIdempotent(pattern);
    ContainsEmpty(Lower(t.name));
  }

  // ---------------------------------------------------------------------------
  // analyze_tokens_for_signals
  // ---------------------------------------------------------------------------

  const BUY_VOLUME: int := 1000000

  /** Buy: below its moving average, up over 24h, and more than a million of volume. */
  predicate BuyCondition(t: Token)
  {
    t.movingAvg.Some? && t.price < t.movingAvg.value
    && t.priceChange24h.Some? && t.priceChange24h.value > 0.0
    && t.volume > BUY_VOLUME
  }

  /** Sell: above its moving average and down over 24h. */
  predicate SellCondition(t: Token)
  {
    t.movingAvg.Some? && t.price > t.movingAvg.value
    && t.priceChange24h.Some? && t.priceChange24h.value < 0.0
  }

  datatype Direction = Buy | Sell

  /** The line `analyze_tokens_for_signals` reports for one token: buy first, else sell. */
  function Verdict(t: Token): (d: Option<Direction>)
    ensures d == Some(Buy) <==> BuyCondition(t)
    ensures d == Some(Sell) <==> SellCondition(t)
  {
    if BuyCondition(t) then Some(Buy) else if SellCondition(t) then Some(Sell) else None
  }

  /** The two conditions never hold together (so the elif never hides a sell); a token
      at its moving average, or without one, gets neither. */
  lemma BuySellExclusive(t: Token)
    ensures !(BuyCondition(t) && SellCondition(t))
    ensures t.movingAvg.None? || t.movingAvg.value == t.price ==> Verdict(t).None?
    ensures t.priceChange24h.None? ==> Verdict(t).None?
  {
  }

  /** The signals reported for a list, one line per token with a verdict, in order. */
  function SignalsFor(tokens: seq<Token>): (r: seq<(Token, Direction)>)
    ensures forall p :: p in r ==> p.0 in tokens && Verdict(p.0) == Some(p.1)
    ensures forall t :: t in tokens && Verdict(t).Some? ==> (t, Verdict(t).value) in r
  {
    if tokens == [] then []
    else
      var prefix := SignalsFor(tokens[..|tokens| - 1]);
      var last := tokens[|tokens| - 1];
      assert forall t :: t in tokens ==> t in tokens[..|tokens| - 1] || t == last;
      prefix + match Verdict(last) case Some(d) => [(last, d)] case None => []
  }
}
