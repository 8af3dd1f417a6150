/** Shared vocabulary of the scanners: optional values, Python's list slicing,
    order-preserving filtering and Python's stable descending sort
    (`list.sort(key=..., reverse=True)` and `sorted(..., reverse=True)`). */
module Common {

  datatype Option<+T> = None | Some(value: T)

  function Min(a: int, b: int): int { if a <= b then a else b }
  function Max(a: int, b: int): int { if a >= b then a else b }

  /** Python's `s[:n]`: the first n elements, where a negative n drops -n elements from the end. */
  function SliceTo<T>(s: seq<T>, n: int): (r: seq<T>)
    ensures |r| <= |s| && r == s[..|r|]
    ensures n >= 0 ==> |r| == Min(n, |s|)
    ensures n < 0 ==> |r| == Max(0, |s| + n)
  {
    if n >= |s| then s
    else if n >= 0 then s[..n]
    else if |s| + n >= 0 then s[..|s| + n]
    else []
  }

  /** A CoinGecko market record as the module-level fetcher of crypto_scanner.py and the
      growth scanner's fetcher build it: percent changes (a missing change is 0), the
      day's volume as a percentage of the market cap, and the market-cap rank. */
  datatype Coin = Coin(name: string, symbol: string, price: real, volume: real,
                       change1h: real, change24h: real, change7d: real,
                       marketCap: real, rank: int, volumeToCap: real)

  const TRADABLE_VOLUME: real := 1000000.0

  /** The pre-filter of the coin scanners: a coin with less than a million of volume, or
      without a positive price, is skipped. */
  predicate Tradable(c: Coin)
  {
    !(c.volume < TRADABLE_VOLUME || c.price <= 0.0)
  }

  /** `(volume / market_cap) * 100 if market_cap else 0`: the day's volume as a
      percentage of the market cap, 0 when the market cap is zero. */
  function VolumeToCap(volume: real, marketCap: real): (r: real)
    ensures marketCap != 0.0 ==> r * marketCap == volume * 100.0
    ensures marketCap == 0.0 ==> r == 0.0
  {
    if marketCap != 0.0 then volume / marketCap * 100.0 else 0.0
  }

  /** One entry of the CoinGecko markets answer; a change the provider leaves out or
      reports as null is None. */
  datatype MarketEntry = MarketEntry(name: string, symbol: string, currentPrice: real, totalVolume: real,
                                     change1h: Option<real>, change24h: Option<real>, change7d: Option<real>,
                                     marketCap: real, marketCapRank: int)

  /** `coin.get(key, 0) or 0`. */
  function OrZero(x: Option<real>): (r: real)
    ensures x.None? ==> r == 0.0
    ensures x.Some? && x.value != 0.0 ==> r == x.value
  {
    if x.Some? then x.value else 0.0
  }

  /** The record the fetchers build from one market entry (the symbol's upper-casing is
      not modelled). */
  function CoinOf(m: MarketEntry): (c: Coin)
    ensures c.volume == m.totalVolume && c.marketCap == m.marketCap && c.rank == m.marketCapRank
    ensures m.marketCap != 0.0 ==> c.volumeToCap * m.marketCap == m.totalVolume * 100.0
    ensures m.marketCap == 0.0 ==> c.volumeToCap == 0.0
    ensures m.change1h.None? ==> c.change1h == 0.0
  {
    Coin(m.name, m.symbol, m.currentPrice, m.totalVolume,
         OrZero(m.change1h), OrZero(m.change24h), OrZero(m.change7d),
         m.marketCap, m.marketCapRank, VolumeToCap(m.totalVolume, m.marketCap))
  }

  /** One branch of a scoring if/elif chain: the points it adds and the factor it
      reports (some branches add points silently). */
  datatype Tier<F> = Tier(points: int, factor: Option<F>)

  /** The factor list one tier appends to. */
  function Emit<F>(t: Tier<F>): seq<F>
  {
    if t.factor.Some? then [t.factor.value] else []
  }

  /** The factors a run of tiers reports, in order. */
  function Emits<F(!new)>(ts: seq<Tier<F>>): (fs: seq<F>)
    ensures |fs| <= |ts|
    ensures forall f :: f in fs <==> exists k :: 0 <= k < |ts| && ts[k].factor == Some(f)
  {
    if ts == [] then []
    else
      var rest := Emits(ts[1..]);
      assert forall k :: 0 < k < |ts| ==> ts[k] == ts[1..][k - 1];
      Emit(ts[0]) + rest
  }

  /** The elements of s that satisfy p, in their original order (a list comprehension
      `[x for x in s if p(x)]`, or a loop that appends the kept elements). */
  function Filter<T>(s: seq<T>, p: T -> bool): (r: seq<T>)
    ensures |r| <= |s|
    ensures forall x :: x in r ==> x in s && p(x)
    ensures forall x :: x in s && p(x) ==> x in r
  {
    if s == [] then []
    else Filter(s[..|s| - 1], p) + (if p(s[|s| - 1]) then [s[|s| - 1]] else [])
  }

  /** Appending three lists one after another is appending their concatenation. */
  lemma AppendThree<T>(a: seq<T>, b: seq<T>, c: seq<T>, d: seq<T>)
    ensures a + b + c + d == a + (b + c + d)
  {
  }

  /** r is a subsequence of s: r is obtained from s by deleting elements. */
  predicate IsSubsequence<T(==)>(r: seq<T>, s: seq<T>)
  {
    if r == [] then true
    else if s == [] then false
    else if r[|r| - 1] == s[|s| - 1] then IsSubsequence(r[..|r| - 1], s[..|s| - 1])
    else IsSubsequence(r, s[..|s| - 1])
  }

  lemma {:induction false} FilterConcat<T>(a: seq<T>, b: seq<T>, p: T -> bool)
    ensures Filter(a + b, p) == Filter(a, p) + Filter(b, p)
  {
    if b == [] {
      assert a + b == a;
    } else {
      var b', last := b[..|b| - 1], b[|b| - 1];
      assert (a + b)[..|a + b| - 1] == a + b' && (a + b)[|a + b| - 1] == last;
      FilterConcat(a, b', p);
      var tail := if p(last) then [last] else [];
      assert Filter(a + b, p) == Filter(a, p) + Filter(b', p) + tail;
      assert Filter(b, p) == Filter(b', p) + tail;
    }
  }

  lemma FilterCons<T>(x: T, t: seq<T>, p: T -> bool)
    ensures p(x) ==> Filter([x] + t, p) == [x] + Filter(t, p)
    ensures !p(x) ==> Filter([x] + t, p) == Filter(t, p)
  {
    FilterConcat([x], t, p);
    assert [x][..0] == [];
    if !p(x) {
      assert Filter([x], p) == [];
    }
  }

  /** Filtering keeps a subsequence of its input, so it keeps the input's order. */
  lemma {:induction false} FilterIsSubsequence<T>(s: seq<T>, p: T -> bool)
    ensures IsSubsequence(Filter(s, p), s)
  {
    if s != [] {
      var s' := s[..|s| - 1];
      FilterIsSubsequence(s', p);
      if !p(s[|s| - 1]) {
        assert Filter(s, p) == Filter(s', p);
        SubsequenceOfPrefix(Filter(s', p), s);
      }
    }
  }

  /** A subsequence of a prefix of s is a subsequence of s. */
  lemma {:induction false} SubsequenceOfPrefix<T>(r: seq<T>, s: seq<T>)
    requires s != [] && IsSubsequence(r, s[..|s| - 1])
    ensures IsSubsequence(r, s)
    decreases |s|, |r|
  {
    if r != [] && r[|r| - 1] == s[|s| - 1] {
      SubsequenceDropLast(r, s[..|s| - 1]);
    }
  }

  /** Dropping the last element of a subsequence keeps it a subsequence. */
  lemma {:induction false} SubsequenceDropLast<T>(r: seq<T>, s: seq<T>)
    requires r != [] && IsSubsequence(r, s)
    ensures IsSubsequence(r[..|r| - 1], s)
    decreases |s|, |r|
  {
    var s' := s[..|s| - 1];
    if r[|r| - 1] != s[|s| - 1] {
      SubsequenceDropLast(r, s');
    }
    if r[..|r| - 1] != [] {
      SubsequenceOfPrefix(r[..|r| - 1], s);
    }
  }

  /** Filtering twice with the same predicate is filtering once. */
  lemma {:induction false} FilterIdempotent<T>(s: seq<T>, p: T -> bool)
    ensures Filter(Filter(s, p), p) == Filter(s, p)
  {
    if s != [] {
      var s' := s[..|s| - 1];
      var last := s[|s| - 1];
      FilterIdempotent(s', p);
      FilterConcat(Filter(s', p), if p(last) then [last] else [], p);
      if p(last) {
        assert Filter([last], p) == Filter([last][..0], p) + [last];
        assert [last][..0] == [];
      }
    }
  }

  /** With a predicate that holds everywhere, filtering changes nothing. */
  lemma {:induction false} FilterAll<T>(s: seq<T>, p: T -> bool)
    requires forall x :: x in s ==> p(x)
    ensures Filter(s, p) == s
  {
    if s != [] {
      var s', last := s[..|s| - 1], s[|s| - 1];
      assert s == s' + [last];
      assert forall x :: x in s' ==> p(x) by {
        forall x | x in s' ensures p(x) {
          assert x in s;
        }
      }
      assert p(last);
      FilterAll(s', p);
    }
  }

  // ---------------------------------------------------------------------------
  // Stable descending sort
  // ---------------------------------------------------------------------------

  /** Keys of s never increase from left to right. */
  ghost predicate SortedDesc<T>(s: seq<T>, key: T -> real)
  {
    forall i, j :: 0 <= i < j < |s| ==> key(s[i]) >= key(s[j])
  }

  /** Inserts x, which came earlier in the input than every element of t, into t:
      x goes in front of the first element whose key does not exceed its own, so
      among equal keys the earlier element stays first. */
  function Insert<T>(x: T, t: seq<T>, key: T -> real): (r: seq<T>)
    ensures |r| == |t| + 1
  {
    if t == [] || key(t[0]) <= key(x) then [x] + t
    else [t[0]] + Insert(x, t[1..], key)
  }

  /** Insertion adds x and loses nothing. */
  lemma {:induction false} InsertPermutes<T>(x: T, t: seq<T>, key: T -> real)
    ensures multiset(Insert(x, t, key)) == multiset(t) + multiset{x}
  {
    if t != [] && key(t[0]) > key(x) {
      assert t == [t[0]] + t[1..];
      InsertPermutes(x, t[1..], key);
    }
  }

  /** Every key in s is at most b. */
  ghost predicate KeysAtMost<T>(s: seq<T>, key: T -> real, b: real)
  {
    forall j :: 0 <= j < |s| ==> key(s[j]) <= b
  }

  /** The tail of a sorted list is sorted, and bounded by the head's key. */
  lemma SortedTail<T>(s: seq<T>, key: T -> real)
    requires s != [] && SortedDesc(s, key)
    ensures SortedDesc(s[1..], key) && KeysAtMost(s[1..], key, key(s[0]))
  {
    var t := s[1..];
    forall i, j | 0 <= i < j < |t| ensures key(t[i]) >= key(t[j]) {
      assert t[i] == s[i + 1] && t[j] == s[j + 1];
    }
    forall j | 0 <= j < |t| ensures key(t[j]) <= key(s[0]) {
      assert t[j] == s[j + 1];
    }
  }

  /** A sorted list whose keys are bounded by h's key stays sorted with h in front. */
  lemma SortedCons<T>(h: T, s: seq<T>, key: T -> real)
    requires SortedDesc(s, key) && KeysAtMost(s, key, key(h))
    ensures SortedDesc([h] + s, key)
  {
    var r := [h] + s;
    forall i, j | 0 <= i < j < |r| ensures key(r[i]) >= key(r[j]) {
      assert r[j] == s[j - 1];
      if i > 0 {
        assert r[i] == s[i - 1];
      }
    }
  }

  /** Inserting an element whose key respects a bound keeps every key within it. */
  lemma {:induction false} InsertKeysAtMost<T>(x: T, t: seq<T>, key: T -> real, b: real)
    requires KeysAtMost(t, key, b) && key(x) <= b
    ensures KeysAtMost(Insert(x, t, key), key, b)
  {
    var r := Insert(x, t, key);
    if t != [] && key(t[0]) > key(x) {
      var t' := t[1..];
      assert KeysAtMost(t', key, b) by {
        forall j | 0 <= j < |t'| ensures key(t'[j]) <= b {
          assert t'[j] == t[j + 1];
        }
      }
      InsertKeysAtMost(x, t', key, b);
      var rest := Insert(x, t', key);
      assert r == [t[0]] + rest;
      forall j | 0 <= j < |r| ensures key(r[j]) <= b {
        if j > 0 {
          assert r[j] == rest[j - 1];
        }
      }
    } else {
      assert r == [x] + t;
      forall j | 0 <= j < |r| ensures key(r[j]) <= b {
        if j > 0 {
          assert r[j] == t[j - 1];
        }
      }
    }
  }

  lemma {:induction false} InsertSorted<T>(x: T, t: seq<T>, key: T -> real)
    requires SortedDesc(t, key)
    ensures SortedDesc(Insert(x, t, key), key)
  {
    if t == [] || key(t[0]) <= key(x) {
      assert KeysAtMost(t, key, key(x)) by {
        forall j | 0 <= j < |t| ensures key(t[j]) <= key(x) {
          if j > 0 {
            assert key(t[0]) >= key(t[j]);
          }
        }
      }
      SortedCons(x, t, key);
    } else {
      SortedTail(t, key);
      InsertSorted(x, t[1..], key);
      InsertKeysAtMost(x, t[1..], key, key(t[0]));
      SortedCons(t[0], Insert(x, t[1..], key), key);
    }
  }

  /** Python's stable sort by `key` with `reverse=True`: keys descending, and
      elements with equal keys in their input order. */
  function SortDesc<T>(s: seq<T>, key: T -> real): (r: seq<T>)
    ensures |r| == |s|
  {
    if s == [] then [] else Insert(s[0], SortDesc(s[1..], key), key)
  }

  /** The sort's output is in non-increasing key order. */
  lemma {:induction false} SortDescSorted<T>(s: seq<T>, key: T -> real)
    ensures SortedDesc(SortDesc(s, key), key)
  {
    if s != [] {
      SortDescSorted(s[1..], key);
      InsertSorted(s[0], SortDesc(s[1..], key), key);
    }
  }

  /** The sort's output is a permutation of its input. */
  lemma {:induction false} SortDescPermutes<T>(s: seq<T>, key: T -> real)
    ensures multiset(SortDesc(s, key)) == multiset(s)
  {
    if s != [] {
      assert s == [s[0]] + s[1..];
      SortDescPermutes(s[1..], key);
      InsertPermutes(s[0], SortDesc(s[1..], key), key);
    }
  }

  /** Filtering commutes with inserting into a sorted list. */
  lemma {:induction false} FilterInsert<T>(x: T, t: seq<T>, key: T -> real, p: T -> bool)
    requires SortedDesc(t, key)
    ensures Filter(Insert(x, t, key), p)
         == if p(x) then Insert(x, Filter(t, p), key) else Filter(t, p)
    decreases |t|, 1
  {
    if t == [] || key(t[0]) <= key(x) {
      FilterInsertFront(x, t, key, p);
    } else {
      SortedTail(t, key);
      FilterInsertBehind(x, t, key, p);
    }
  }

  /** The case where x goes in front of t. */
  lemma FilterInsertFront<T>(x: T, t: seq<T>, key: T -> real, p: T -> bool)
    requires SortedDesc(t, key)
    requires t == [] || key(t[0]) <= key(x)
    ensures Filter(Insert(x, t, key), p)
         == if p(x) then Insert(x, Filter(t, p), key) else Filter(t, p)
  {
    assert Insert(x, t, key) == [x] + t;
    FilterCons(x, t, p);
    var f := Filter(t, p);
    if p(x) && f != [] {
      assert key(f[0]) <= key(x) by {
        assert f[0] in t;
        var j :| 0 <= j < |t| && t[j] == f[0];
        if j > 0 {
          assert key(t[0]) >= key(t[j]);
        }
      }
      assert Insert(x, f, key) == [x] + f;
    }
  }

  /** The case where x goes behind the head of t. */
  lemma {:induction false} FilterInsertBehind<T>(x: T, t: seq<T>, key: T -> real, p: T -> bool)
    requires t != [] && key(t[0]) > key(x)
    requires SortedDesc(t[1..], key)
    ensures Filter(Insert(x, t, key), p)
         == if p(x) then Insert(x, Filter(t, p), key) else Filter(t, p)
    decreases |t|, 0
  {
    var t0, t' := t[0], t[1..];
    var it := Insert(x, t', key);
    assert t == [t0] + t';
    assert Insert(x, t, key) == [t0] + it;
    FilterInsert(x, t', key, p);
    FilterCons(t0, it, p);
    FilterCons(t0, t', p);
    var f' := Filter(t', p);
    if p(t0) {
      assert Filter(t, p) == [t0] + f';
      if p(x) {
        assert Filter(Insert(x, t, key), p) == [t0] + Insert(x, f', key);
        assert ([t0] + f')[0] == t0 && ([t0] + f')[1..] == f';
        assert Insert(x, [t0] + f', key) == [t0] + Insert(x, f', key);
      } else {
        assert Filter(Insert(x, t, key), p) == [t0] + f';
      }
    } else {
      assert Filter(t, p) == f';
      assert Filter(Insert(x, t, key), p) == Filter(it, p);
    }
  }

  /** Filtering commutes with the stable sort. */
  lemma {:induction false} FilterSortDesc<T>(s: seq<T>, key: T -> real, p: T -> bool)
    ensures Filter(SortDesc(s, key), p) == SortDesc(Filter(s, p), key)
  {
    if s != [] {
      assert s == [s[0]] + s[1..];
      FilterSortDesc(s[1..], key, p);
      SortDescSorted(s[1..], key);
      FilterInsert(s[0], SortDesc(s[1..], key), key, p);
      FilterCons(s[0], s[1..], p);
      var f := Filter(s[1..], p);
      if p(s[0]) {
        assert ([s[0]] + f)[0] == s[0] && ([s[0]] + f)[1..] == f;
        assert SortDesc([s[0]] + f, key) == Insert(s[0], SortDesc(f, key), key);
      }
    }
  }

  /** A list whose keys are all equal is already in stable order. */
  lemma {:induction false} SortDescOfEqualKeys<T>(s: seq<T>, key: T -> real, k: real)
    requires forall x :: x in s ==> key(x) == k
    ensures SortDesc(s, key) == s
  {
    if s != [] {
      var t := s[1..];
      assert s == [s[0]] + t;
      assert forall x :: x in t ==> key(x) == k by {
        forall x | x in t ensures key(x) == k {
          assert x in s;
        }
      }
      SortDescOfEqualKeys(t, key, k);
      if t != [] {
        assert t[0] in s;
      }
      assert Insert(s[0], t, key) == [s[0]] + t;
    }
  }

  /** Stability: among the elements that share one key value k (those p selects),
      the sort keeps the input order. */
  lemma SortDescStable<T>(s: seq<T>, key: T -> real, p: T -> bool, k: real)
    requires forall x :: p(x) <==> key(x) == k
    ensures Filter(SortDesc(s, key), p) == Filter(s, p)
  {
    FilterSortDesc(s, key, p);
    SortDescOfEqualKeys(Filter(s, p), key, k);
  }

  /** No two positions of s have the same f-image (a list of records with distinct keys). */
  ghost predicate DistinctBy<T, K>(s: seq<T>, f: T -> K)
  {
    forall a, b :: 0 <= a < b < |s| ==> f(s[a]) != f(s[b])
  }

  /** No element of s has f-image v. */
  ghost predicate Avoids<T, K>(s: seq<T>, f: T -> K, v: K)
  {
    forall j :: 0 <= j < |s| ==> f(s[j]) != v
  }

  lemma DistinctTail<T, K>(s: seq<T>, f: T -> K)
    requires s != [] && DistinctBy(s, f)
    ensures DistinctBy(s[1..], f) && Avoids(s[1..], f, f(s[0]))
  {
    var t := s[1..];
    forall a, b | 0 <= a < b < |t| ensures f(t[a]) != f(t[b]) {
      assert t[a] == s[a + 1] && t[b] == s[b + 1];
    }
    forall j | 0 <= j < |t| ensures f(t[j]) != f(s[0]) {
      assert t[j] == s[j + 1];
    }
  }

  lemma DistinctCons<T, K>(h: T, s: seq<T>, f: T -> K)
    requires DistinctBy(s, f) && Avoids(s, f, f(h))
    ensures DistinctBy([h] + s, f)
  {
    var r := [h] + s;
    forall a, b | 0 <= a < b < |r| ensures f(r[a]) != f(r[b]) {
      assert r[b] == s[b - 1];
      if a > 0 {
        assert r[a] == s[a - 1];
      }
    }
  }

  lemma {:induction false} InsertAvoids<T, K>(x: T, t: seq<T>, key: T -> real, f: T -> K, v: K)
    requires Avoids(t, f, v) && f(x) != v
    ensures Avoids(Insert(x, t, key), f, v)
  {
    var r := Insert(x, t, key);
    if t != [] && key(t[0]) > key(x) {
      var t' := t[1..];
      assert Avoids(t', f, v) by {
        forall j | 0 <= j < |t'| ensures f(t'[j]) != v {
          assert t'[j] == t[j + 1];
        }
      }
      InsertAvoids(x, t', key, f, v);
      var rest := Insert(x, t', key);
      assert r == [t[0]] + rest;
      forall j | 0 <= j < |r| ensures f(r[j]) != v {
        if j > 0 {
          assert r[j] == rest[j - 1];
        }
      }
    } else {
      assert r == [x] + t;
      forall j | 0 <= j < |r| ensures f(r[j]) != v {
        if j > 0 {
          assert r[j] == t[j - 1];
        }
      }
    }
  }

  lemma {:induction false} InsertDistinctBy<T, K>(x: T, t: seq<T>, key: T -> real, f: T -> K)
    requires DistinctBy(t, f) && Avoids(t, f, f(x))
    ensures DistinctBy(Insert(x, t, key), f)
  {
    if t == [] || key(t[0]) <= key(x) {
      DistinctCons(x, t, f);
    } else {
      var t' := t[1..];
      DistinctTail(t, f);
      assert Avoids(t', f, f(x)) by {
        forall j | 0 <= j < |t'| ensures f(t'[j]) != f(x) {
          assert t'[j] == t[j + 1];
        }
      }
      InsertDistinctBy(x, t', key, f);
      InsertAvoids(x, t', key, f, f(t[0]));
      DistinctCons(t[0], Insert(x, t', key), f);
    }
  }

  lemma {:induction false} SortDescAvoids<T, K>(s: seq<T>, key: T -> real, f: T -> K, v: K)
    requires Avoids(s, f, v)
    ensures Avoids(SortDesc(s, key), f, v)
  {
    if s != [] {
      var t := s[1..];
      assert Avoids(t, f, v) by {
        forall j | 0 <= j < |t| ensures f(t[j]) != v {
          assert t[j] == s[j + 1];
        }
      }
      SortDescAvoids(t, key, f, v);
      InsertAvoids(s[0], SortDesc(t, key), key, f, v);
    }
  }

  /** Sorting keeps the keys of a list distinct. */
  lemma {:induction false} SortDescDistinctBy<T, K>(s: seq<T>, key: T -> real, f: T -> K)
    requires DistinctBy(s, f)
    ensures DistinctBy(SortDesc(s, key), f)
  {
    if s != [] {
      DistinctTail(s, f);
      SortDescDistinctBy(s[1..], key, f);
      SortDescAvoids(s[1..], key, f, f(s[0]));
      InsertDistinctBy(s[0], SortDesc(s[1..], key), key, f);
    }
  }

  /** `[g(x) for x in s]`. */
  function MapSeq<A, B>(s: seq<A>, g: A -> B): (r: seq<B>)
    ensures |r| == |s|
    ensures forall j :: 0 <= j < |s| ==> r[j] == g(s[j])
  {
    seq(|s|, j requires 0 <= j < |s| => g(s[j]))
  }

  lemma MapSeqConcat<A, B>(s: seq<A>, t: seq<A>, g: A -> B)
    ensures MapSeq(s + t, g) == MapSeq(s, g) + MapSeq(t, g)
  {
    assert forall j :: 0 <= j < |t| ==> (s + t)[|s| + j] == t[j];
  }

  lemma MapSeqCons<A, B>(h: A, s: seq<A>, g: A -> B)
    ensures MapSeq([h] + s, g) == [g(h)] + MapSeq(s, g)
  {
    assert forall j :: 0 < j <= |s| ==> ([h] + s)[j] == s[j - 1];
  }

  lemma {:induction false} InsertMap<A, B>(x: A, t: seq<A>, g: A -> B, keyA: A -> real, keyB: B -> real)
    requires forall a :: keyA(a) == keyB(g(a))
    ensures MapSeq(Insert(x, t, keyA), g) == Insert(g(x), MapSeq(t, g), keyB)
  {
    var mt := MapSeq(t, g);
    if t == [] || keyA(t[0]) <= keyA(x) {
      assert Insert(x, t, keyA) == [x] + t;
      MapSeqCons(x, t, g);
      assert mt == [] || keyB(mt[0]) <= keyB(g(x));
    } else {
      assert t == [t[0]] + t[1..];
      assert Insert(x, t, keyA) == [t[0]] + Insert(x, t[1..], keyA);
      InsertMap(x, t[1..], g, keyA, keyB);
      MapSeqCons(t[0], t[1..], g);
      MapSeqCons(t[0], Insert(x, t[1..], keyA), g);
      assert keyB(mt[0]) > keyB(g(x));
      assert mt == [mt[0]] + mt[1..];
    }
  }

  /** Sorting by a key that depends only on g(x), then applying g, is applying g and then
      sorting: the same order, ties included. */
  lemma {:induction false} SortDescMap<A, B>(s: seq<A>, g: A -> B, keyA: A -> real, keyB: B -> real)
    requires forall a :: keyA(a) == keyB(g(a))
    ensures MapSeq(SortDesc(s, keyA), g) == SortDesc(MapSeq(s, g), keyB)
  {
    if s != [] {
      assert s == [s[0]] + s[1..];
      SortDescMap(s[1..], g, keyA, keyB);
      InsertMap(s[0], SortDesc(s[1..], keyA), g, keyA, keyB);
      MapSeqCons(s[0], s[1..], g);
      var ms := MapSeq(s, g);
      assert ms != [] && ms[0] == g(s[0]) && ms[1..] == MapSeq(s[1..], g);
    }
  }

  /** The first n of the stable sort (`sorted(s, reverse=True)[:n]`): elements of s, in
      non-increasing key order, and none of the elements left out has a larger key than
      any element kept. */
  lemma TopOfSortDesc<T>(s: seq<T>, key: T -> real, n: int)
    ensures forall x :: x in SliceTo(SortDesc(s, key), n) ==> x in s
    ensures SortedDesc(SliceTo(SortDesc(s, key), n), key)
    ensures forall x, y :: x in s && x !in SliceTo(SortDesc(s, key), n) && y in SliceTo(SortDesc(s, key), n)
              ==> key(y) >= key(x)
  {
    var q := SortDesc(s, key);
    var r := SliceTo(q, n);
    SortDescSorted(s, key);
    SortDescPermutes(s, key);
    forall x | x in r ensures x in s {
      assert x in multiset(q);
    }
    forall i, j | 0 <= i < j < |r| ensures key(r[i]) >= key(r[j]) {
      assert r[i] == q[i] && r[j] == q[j];
    }
    forall x, y | x in s && x !in r && y in r ensures key(y) >= key(x) {
      assert x in multiset(q);
      var a :| 0 <= a < |q| && q[a] == x;
      var b :| 0 <= b < |r| && r[b] == y;
      assert r[b] == q[b];
    }
  }
}
