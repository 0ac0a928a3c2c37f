/** What the price lookup averages, returns and stores, read off the sources and the queries. */
module PriceAnswers {
  import opened PriceDiscovery

  // ----- the sources that count --------------------------------------------

  /** The open interval a price of the symbol must lie in. */
  predicate Plausible(symbol: string, price: real) {
    if symbol in ["USDC", "USDT", "DAI", "USDC.e"] then 0.95 < price < 1.05
    else if symbol in ["LUSD", "FRAX", "DOLA"] then 0.5 < price < 1.5
    else 0.0001 < price < 100000.0
  }

  lemma PlausibleIsInBand(symbol: string, price: real)
    ensures Plausible(symbol, price) <==> InBand(symbol, price)
  {
    var strict, loose := ["USDC", "USDT", "DAI", "USDC.e"], ["LUSD", "FRAX", "DOLA"];
    assert strict[0] == "USDC" && strict[1] == "USDT" && strict[2] == "DAI" && strict[3] == "USDC.e";
    assert loose[0] == "LUSD" && loose[1] == "FRAX" && loose[2] == "DOLA";
  }

  /** Source `i` counts: it is supported and answered a plausible price. */
  predicate Counts(config: TokenConfig, quotes: seq<real>, i: nat)
    requires i < |config.sources|
  {
    !config.sources[i].kind.Unsupported? && i < |quotes| && Plausible(config.symbol, quotes[i])
  }

  /** The confidence of a source, a tenth less for a reference feed. */
  function Weight(source: Source): real {
    (if source.kind.ChainlinkReference? then 0.9 else 1.0) * source.confidence as real / 100.0
  }

  function CountOf(config: TokenConfig, quotes: seq<real>, n: nat): nat
    requires n <= |config.sources|
  {
    if n == 0 then 0 else CountOf(config, quotes, n - 1) + (if Counts(config, quotes, n - 1) then 1 else 0)
  }

  function WeightSum(config: TokenConfig, quotes: seq<real>, n: nat): real
    requires n <= |config.sources|
  {
    if n == 0 then 0.0
    else
      WeightSum(config, quotes, n - 1)
      + (if Counts(config, quotes, n - 1) then Weight(config.sources[n - 1]) else 0.0)
  }

  function WeightedSum(config: TokenConfig, quotes: seq<real>, n: nat): real
    requires n <= |config.sources|
  {
    if n == 0 then 0.0
    else
      WeightedSum(config, quotes, n - 1)
      + (if Counts(config, quotes, n - 1) then quotes[n - 1] * Weight(config.sources[n - 1]) else 0.0)
  }

  function PlainSum(config: TokenConfig, quotes: seq<real>, n: nat): real
    requires n <= |config.sources|
  {
    if n == 0 then 0.0
    else PlainSum(config, quotes, n - 1) + (if Counts(config, quotes, n - 1) then quotes[n - 1] else 0.0)
  }

  lemma SourceGives(config: TokenConfig, quotes: seq<real>, i: nat)
    requires i < |config.sources|
    ensures var p := FromSource(config.symbol, config.sources[i], Quote(quotes, i));
            if Counts(config, quotes, i) then p == Priced(quotes[i], Weight(config.sources[i])) && p.price > 0.0
            else p == Priced(0.0, 0.0)
  {
    PlausibleIsInBand(config.symbol, Quote(quotes, i));
    var c := config.sources[i].confidence as real;
    assert c / 100.0 * 0.9 == 0.9 * c / 100.0;
  }

  lemma AcceptedAppend(ps: seq<Priced>, p: Priced)
    ensures SumPrices(ps + [p]) == SumPrices(ps) + p.price
    ensures SumConfidences(ps + [p]) == SumConfidences(ps) + p.confidence
    ensures SumWeighted(ps + [p]) == SumWeighted(ps) + p.price * p.confidence
  {
    assert (ps + [p])[..|ps|] == ps;
  }

  lemma AcceptedNext(config: TokenConfig, quotes: seq<real>, n: nat)
    requires n < |config.sources|
    ensures Accepted(config, quotes, n + 1) == Accepted(config, quotes, n)
        + (if Counts(config, quotes, n) then [Priced(quotes[n], Weight(config.sources[n]))] else [])
  {
    SourceGives(config, quotes, n);
  }

  lemma {:induction false} AcceptedSums(config: TokenConfig, quotes: seq<real>, n: nat)
    requires n <= |config.sources|
    ensures var ps := Accepted(config, quotes, n);
            && |ps| == CountOf(config, quotes, n) && SumPrices(ps) == PlainSum(config, quotes, n)
            && SumConfidences(ps) == WeightSum(config, quotes, n) && SumWeighted(ps) == WeightedSum(config, quotes, n)
  {
    if n > 0 {
      var ps := Accepted(config, quotes, n - 1);
      AcceptedSums(config, quotes, n - 1);
      AcceptedNext(config, quotes, n - 1);
      if Counts(config, quotes, n - 1) {
        AcceptedAppend(ps, Priced(quotes[n - 1], Weight(config.sources[n - 1])));
      } else {
        assert ps + [] == ps;
      }
    }
  }

  lemma DivTimes(n: real, d: real)
    requires d != 0.0
    ensures n / d * d == n
  {
  }

  /** `price` is the mean of the prices weighted by the confidences, or the plain mean without any weight. */
  predicate IsMean(count: nat, plain: real, weights: real, weighted: real, r: Priced) {
    if count == 0 then r == Priced(0.0, 0.0)
    else if weights != 0.0 then r.price * weights == weighted && r.confidence * count as real == weights
    else r.price * count as real == plain && r.confidence == if count == 1 then 0.0 else 0.5
  }

  lemma SingleMean(ps: seq<Priced>)
    requires |ps| == 1
    ensures IsMean(1, SumPrices(ps), SumConfidences(ps), SumWeighted(ps), ps[0])
  {
    assert ps[..0] == [];
  }

  lemma WeightedMean(count: nat, plain: real, weights: real, weighted: real)
    requires count > 1 && weights != 0.0
    ensures IsMean(count, plain, weights, weighted, Priced(weighted / weights, weights / count as real))
  {
    DivTimes(weighted, weights);
    DivTimes(weights, count as real);
  }

  lemma PlainMean(count: nat, plain: real, weighted: real)
    requires count > 1
    ensures IsMean(count, plain, 0.0, weighted, Priced(plain / count as real, 0.5))
  {
    DivTimes(plain, count as real);
  }

  lemma AverageIsMean(ps: seq<Priced>)
    ensures IsMean(|ps|, SumPrices(ps), SumConfidences(ps), SumWeighted(ps), Average(ps))
  {
    if |ps| == 1 {
      SingleMean(ps);
    } else if |ps| > 1 {
      if SumConfidences(ps) == 0.0 {
        PlainMean(|ps|, SumPrices(ps), SumWeighted(ps));
      } else {
        WeightedMean(|ps|, SumPrices(ps), SumConfidences(ps), SumWeighted(ps));
      }
    }
  }

  /**
   The price found times the sum of the weights of the sources that count is the sum of their weighted prices,
   and its confidence times their number is the sum of their weights. Without any weight it is the plain mean.
   */
  lemma PriceIsWeightedMean(config: TokenConfig, quotes: seq<real>)
    ensures var n := |config.sources|;
            IsMean(CountOf(config, quotes, n), PlainSum(config, quotes, n), WeightSum(config, quotes, n),
                   WeightedSum(config, quotes, n), FromSources(config, quotes))
  {
    AcceptedSums(config, quotes, |config.sources|);
    AverageIsMean(Accepted(config, quotes, |config.sources|));
  }

  // ----- what is returned and stored ---------------------------------------

  /** The row as far as the lookup is concerned: a token never seen has price, confidence and time zero. */
  function Stored(s: State, t: Token): TokenRow {
    if t in s.tokens then s.tokens[t] else TokenRow(0.0, 0.0, 0)
  }

  /** The stored price is under five minutes old and over one half confident, and no refresh is forced. */
  predicate Hit(s: State, q: Query) {
    !q.force && q.time - Stored(s, q.token).lastUpdate < 300 && Stored(s, q.token).confidence > 0.5
  }

  predicate Trusted(p: Priced) {
    p.price > 0.0 && p.confidence > 0.5
  }

  /** The query stores a price: the cache does not answer it, and the sources or the one-dollar fallback do. */
  predicate Stores(net: Network, s: State, q: Query) {
    && q.token in net.configs && !Hit(s, q)
    && (Trusted(FromSources(net.configs[q.token], q.quotes)) || q.token in net.critical)
  }

  function NewPrice(net: Network, q: Query): Priced
    requires q.token in net.configs
  {
    var found := FromSources(net.configs[q.token], q.quotes);
    if Trusted(found) then found else Priced(1.0, 0.95)
  }

  lemma AskStep(net: Network, s: State, q: Query, t: Token, k: (Token, nat))
    ensures var (s', price) := Ask(net, s, q);
            if Stores(net, s, q) then
              var p := NewPrice(net, q);
              && price == p.price
              && Stored(s', t) == (if t == q.token then TokenRow(p.price, p.confidence, q.time) else Stored(s, t))
              && (k in s'.updates <==> k == (q.token, q.time) || k in s.updates)
              && (k in s'.updates ==> s'.updates[k] == if k == (q.token, q.time) then p else s.updates[k])
            else
              && price == (if q.token in net.configs && Hit(s, q) then Stored(s, q.token).derivedUSD else 0.0)
              && Stored(s', t) == Stored(s, t) && s'.updates == s.updates
  {
  }

  lemma RowStep(net: Network, s: State, q: Query, t: Token)
    ensures Stored(Ask(net, s, q).0, t)
         == if Stores(net, s, q) && t == q.token then
              TokenRow(NewPrice(net, q).price, NewPrice(net, q).confidence, q.time)
            else Stored(s, t)
  {
    AskStep(net, s, q, t, (t, 0));
  }

  ghost predicate StoredAt(net: Network, qs: seq<Query>, i: nat)
    requires i < |qs|
  {
    Stores(net, Run(net, qs[..i]), qs[i])
  }

  ghost predicate StoredSince(net: Network, qs: seq<Query>, first: nat, t: Token) {
    exists j: nat :: first <= j < |qs| && qs[j].token == t && StoredAt(net, qs, j)
  }

  lemma StoredAtPrefix(net: Network, qs: seq<Query>, j: nat)
    requires j < |qs| - 1
    ensures StoredAt(net, qs, j) == StoredAt(net, qs[..|qs| - 1], j)
  {
    assert qs[..|qs| - 1][..j] == qs[..j];
  }

  lemma StoredSincePrefix(net: Network, qs: seq<Query>, first: nat, t: Token)
    requires first < |qs| && !StoredSince(net, qs, first, t)
    ensures !StoredSince(net, qs[..|qs| - 1], first, t)
    ensures qs[|qs| - 1].token == t ==> !StoredAt(net, qs, |qs| - 1)
  {
    var init := qs[..|qs| - 1];
    if StoredSince(net, init, first, t) {
      var j: nat :| first <= j < |init| && init[j].token == t && StoredAt(net, init, j);
      StoredAtPrefix(net, qs, j);
    }
  }

  /** The price, confidence and time of a token are those of the last query that stored one. */
  lemma {:induction false} RowOfLastStore(net: Network, qs: seq<Query>, i: nat)
    requires i < |qs| && StoredAt(net, qs, i) && !StoredSince(net, qs, i + 1, qs[i].token)
    ensures var p := NewPrice(net, qs[i]);
            Stored(Run(net, qs), qs[i].token) == TokenRow(p.price, p.confidence, qs[i].time)
    decreases |qs|
  {
    var init, n := qs[..|qs| - 1], |qs| - 1;
    RowStep(net, Run(net, init), qs[n], qs[i].token);
    if i < n {
      StoredAtPrefix(net, qs, i);
      StoredSincePrefix(net, qs, i + 1, qs[i].token);
      RowOfLastStore(net, init, i);
    }
  }

  lemma {:induction false} NeverStored(net: Network, qs: seq<Query>, t: Token)
    requires !StoredSince(net, qs, 0, t)
    ensures Stored(Run(net, qs), t) == TokenRow(0.0, 0.0, 0)
  {
    if qs != [] {
      var n := |qs| - 1;
      RowStep(net, Run(net, qs[..n]), qs[n], t);
      StoredSincePrefix(net, qs, 0, t);
      NeverStored(net, qs[..n], t);
    }
  }

  /**
   The price returned after any run: the stored one on a cache hit, else the trusted average, else one dollar
   for a listed stablecoin, else zero; a price that was looked up is recorded at its time.
   */
  lemma PriceReturned(net: Network, qs: seq<Query>, q: Query)
    ensures var (s', price) := Ask(net, Run(net, qs), q);
            var s := Run(net, qs);
            && price == (if q.token !in net.configs then 0.0
                         else if Hit(s, q) then Stored(s, q.token).derivedUSD
                         else if Trusted(FromSources(net.configs[q.token], q.quotes)) then
                           FromSources(net.configs[q.token], q.quotes).price
                         else if q.token in net.critical then 1.0 else 0.0)
            && (Stores(net, s, q) ==>
                  (q.token, q.time) in s'.updates && s'.updates[(q.token, q.time)] == NewPrice(net, q))
            && (!Stores(net, s, q) ==> s'.updates == s.updates)
  {
    AskStep(net, Run(net, qs), q, q.token, (q.token, q.time));
  }
}
