/** Token prices: averaging the accepted sources, the five-minute cache and the stablecoin fallback. */
module PriceDiscovery {

  type Token = nat

  const PRICE_CACHE_DURATION := 300
  const MIN_CONFIDENCE_THRESHOLD := 0.5
  const STABLECOIN_FALLBACK_PRICE := 1.0
  const STABLECOIN_FALLBACK_CONFIDENCE := 0.95

  datatype SourceKind = Chainlink | ChainlinkReference | UniswapV3 | VelodromeSlipstream | VelodromeV2 | Unsupported

  datatype Source = Source(kind: SourceKind, confidence: int)

  datatype TokenConfig = TokenConfig(symbol: string, sources: seq<Source>)

  /** A price with the confidence put in it. */
  datatype Priced = Priced(price: real, confidence: real)

  const NOTHING := Priced(0.0, 0.0)

  // ----- acceptance band ---------------------------------------------------

  datatype Band = Band(min: real, max: real)

  function BandOf(symbol: string): Band {
    if symbol == "USDC" || symbol == "USDT" || symbol == "DAI" || symbol == "USDC.e" then Band(0.95, 1.05)
    else if symbol == "LUSD" || symbol == "FRAX" || symbol == "DOLA" then Band(0.5, 1.5)
    else Band(0.0001, 100000.0)
  }

  /** `isValidPriceResult`: strictly inside the band of the symbol. */
  predicate InBand(symbol: string, price: real) {
    BandOf(symbol).min < price < BandOf(symbol).max
  }

  // ----- the average over the sources --------------------------------------

  function BaseConfidence(source: Source): real {
    source.confidence as real / 100.0
  }

  /** `getPriceFromSource`: what a source contributes once its adapter answered `quote`. */
  function FromSource(symbol: string, source: Source, quote: real): Priced {
    if source.kind.Unsupported? || quote <= 0.0 || !InBand(symbol, quote) then NOTHING
    else Priced(quote, if source.kind.ChainlinkReference? then BaseConfidence(source) * 0.9 else BaseConfidence(source))
  }

  /** An adapter without an answer answers zero. */
  function Quote(quotes: seq<real>, i: nat): real {
    if i < |quotes| then quotes[i] else 0.0
  }

  /** The positive prices of the first `n` sources, in order. */
  function Accepted(config: TokenConfig, quotes: seq<real>, n: nat): seq<Priced>
    requires n <= |config.sources|
  {
    if n == 0 then []
    else
      var p := FromSource(config.symbol, config.sources[n - 1], Quote(quotes, n - 1));
      Accepted(config, quotes, n - 1) + (if p.price > 0.0 then [p] else [])
  }

  function SumPrices(ps: seq<Priced>): real {
    if ps == [] then 0.0 else SumPrices(ps[..|ps| - 1]) + ps[|ps| - 1].price
  }

  function SumConfidences(ps: seq<Priced>): real {
    if ps == [] then 0.0 else SumConfidences(ps[..|ps| - 1]) + ps[|ps| - 1].confidence
  }

  function SumWeighted(ps: seq<Priced>): real {
    if ps == [] then 0.0 else SumWeighted(ps[..|ps| - 1]) + ps[|ps| - 1].price * ps[|ps| - 1].confidence
  }

  function Average(ps: seq<Priced>): Priced {
    if |ps| == 0 then NOTHING
    else if |ps| == 1 then ps[0]
    else if SumConfidences(ps) == 0.0 then Priced(SumPrices(ps) / |ps| as real, 0.5)
    else Priced(SumWeighted(ps) / SumConfidences(ps), SumConfidences(ps) / |ps| as real)
  }

  lemma MulOrder(x: real, y: real, w: real)
    requires x <= y && w >= 0.0
    ensures x * w <= y * w
  {
  }

  lemma MulStrict(x: real, y: real, w: real)
    requires x < y && w > 0.0
    ensures x * w < y * w
  {
  }

  /** One more price keeps the weighted sum between the bounds. */
  lemma WeightedStep(low: real, high: real, c: real, sum: real, price: real, w: real)
    requires low <= price <= high && w >= 0.0 && low * c <= sum <= high * c
    ensures low * (c + w) <= sum + price * w <= high * (c + w)
  {
    MulOrder(low, price, w);
    MulOrder(price, high, w);
    assert low * (c + w) == low * c + low * w;
    assert high * (c + w) == high * c + high * w;
  }

  /** Bounds on every price bound the weighted sum. */
  lemma {:induction false} WeightedSumBounds(ps: seq<Priced>, low: real, high: real)
    requires forall i :: 0 <= i < |ps| ==> low <= ps[i].price <= high && ps[i].confidence >= 0.0
    ensures SumConfidences(ps) >= 0.0
    ensures low * SumConfidences(ps) <= SumWeighted(ps) <= high * SumConfidences(ps)
  {
    if ps != [] {
      var init, p := ps[..|ps| - 1], ps[|ps| - 1];
      WeightedSumBounds(init, low, high);
      WeightedStep(low, high, SumConfidences(init), SumWeighted(init), p.price, p.confidence);
    }
  }

  lemma {:induction false} PlainSumBounds(ps: seq<Priced>, low: real, high: real)
    requires forall i :: 0 <= i < |ps| ==> low <= ps[i].price <= high
    ensures low * |ps| as real <= SumPrices(ps) <= high * |ps| as real
  {
    if ps != [] {
      PlainSumBounds(ps[..|ps| - 1], low, high);
      assert |ps| as real == (|ps| - 1) as real + 1.0;
    }
  }

  lemma QuotientBetween(n: real, d: real, low: real, high: real)
    requires d > 0.0 && low * d <= n <= high * d
    ensures low <= n / d <= high
  {
    var q := n / d;
    assert q * d == n;
    if q < low {
      MulStrict(q, low, d);
    } else if q > high {
      MulStrict(high, q, d);
    }
  }

  lemma WeightedMeanBetween(ps: seq<Priced>, low: real, high: real)
    requires forall i :: 0 <= i < |ps| ==> low <= ps[i].price <= high && ps[i].confidence >= 0.0
    requires SumConfidences(ps) != 0.0
    ensures low <= SumWeighted(ps) / SumConfidences(ps) <= high
  {
    WeightedSumBounds(ps, low, high);
    QuotientBetween(SumWeighted(ps), SumConfidences(ps), low, high);
  }

  lemma PlainMeanBetween(ps: seq<Priced>, low: real, high: real)
    requires ps != [] && forall i :: 0 <= i < |ps| ==> low <= ps[i].price <= high
    ensures low <= SumPrices(ps) / |ps| as real <= high
  {
    PlainSumBounds(ps, low, high);
    QuotientBetween(SumPrices(ps), |ps| as real, low, high);
  }

  /** The averaged price lies between any bounds on the accepted prices, the least and the greatest included. */
  lemma AverageBetween(ps: seq<Priced>, low: real, high: real)
    requires ps != [] && forall i :: 0 <= i < |ps| ==> low <= ps[i].price <= high && ps[i].confidence >= 0.0
    ensures low <= Average(ps).price <= high
  {
    if |ps| > 1 {
      if SumConfidences(ps) == 0.0 {
        PlainMeanBetween(ps, low, high);
      } else {
        WeightedMeanBetween(ps, low, high);
      }
    }
  }

  lemma {:induction false} Extremes(ps: seq<Priced>) returns (least: nat, greatest: nat)
    requires ps != []
    ensures least < |ps| && greatest < |ps|
    ensures forall i :: 0 <= i < |ps| ==> ps[least].price <= ps[i].price <= ps[greatest].price
  {
    least, greatest := 0, 0;
    if |ps| > 1 {
      var init, last := ps[..|ps| - 1], |ps| - 1;
      var l, g := Extremes(init);
      least := if ps[last].price < ps[l].price then last else l;
      greatest := if ps[last].price > ps[g].price then last else g;
      forall i | 0 <= i < |ps| ensures ps[least].price <= ps[i].price <= ps[greatest].price {
        if i < last {
          assert init[i] == ps[i] && init[l] == ps[l] && init[g] == ps[g];
        }
      }
    }
  }

  /** Some accepted price is at most the average and some accepted price is at least the average. */
  lemma AverageBetweenSources(ps: seq<Priced>)
    requires ps != [] && forall i :: 0 <= i < |ps| ==> ps[i].confidence >= 0.0
    ensures exists i :: 0 <= i < |ps| && ps[i].price <= Average(ps).price
    ensures exists j :: 0 <= j < |ps| && Average(ps).price <= ps[j].price
  {
    var least, greatest := Extremes(ps);
    AverageBetween(ps, ps[least].price, ps[greatest].price);
  }

  /** Confidences are percentages. */
  predicate ValidConfig(config: TokenConfig) {
    forall i :: 0 <= i < |config.sources| ==> 0 <= config.sources[i].confidence <= 100
  }

  /** Exactly the supported sources with a quote in band are averaged. */
  lemma {:induction false} AcceptedInBand(config: TokenConfig, quotes: seq<real>, n: nat)
    requires ValidConfig(config) && n <= |config.sources|
    ensures forall p :: p in Accepted(config, quotes, n) ==> InBand(config.symbol,
                                                                    p.price) && 0.0 <= p.confidence <= 1.0
    ensures Accepted(config, quotes, n) == []
        <==> forall i :: 0 <= i < n ==> config.sources[i].kind.Unsupported? || !InBand(config.symbol, Quote(quotes, i))
  {
    if n > 0 {
      AcceptedInBand(config, quotes, n - 1);
      var source := config.sources[n - 1];
      assert 0.0 <= BaseConfidence(source) <= 1.0;
      assert 0.0 <= BaseConfidence(source) * 0.9 <= 1.0;
    }
  }

  function FromSources(config: TokenConfig, quotes: seq<real>): Priced {
    Average(Accepted(config, quotes, |config.sources|))
  }

  /** The averaged price is inside the band whenever any source was accepted. */
  lemma AverageInBand(config: TokenConfig, quotes: seq<real>)
    requires ValidConfig(config)
    ensures var ps, r := Accepted(config, quotes, |config.sources|), FromSources(config, quotes);
            if ps == [] then r == NOTHING else InBand(config.symbol, r.price) && r.price > 0.0
  {
    var ps := Accepted(config, quotes, |config.sources|);
    AcceptedInBand(config, quotes, |config.sources|);
    if ps != [] {
      AverageBetweenSources(ps);
      var i :| 0 <= i < |ps| && ps[i].price <= Average(ps).price;
      var j :| 0 <= j < |ps| && Average(ps).price <= ps[j].price;
      assert ps[i] in ps && ps[j] in ps;
    }
  }

  // ----- the token table ---------------------------------------------------

  datatype TokenRow = TokenRow(derivedUSD: real, confidence: real, lastUpdate: int)

  const NEW_TOKEN := TokenRow(0.0, 0.0, 0)

  /** PriceUpdate rows are keyed by token and timestamp. */
  datatype State = State(tokens: map<Token, TokenRow>, updates: map<(Token, nat), Priced>)

  const EMPTY := State(map[], map[])

  /** The token table of the network and its list of stablecoins that fall back to one dollar. */
  datatype Network = Network(configs: map<Token, TokenConfig>, critical: seq<Token>)

  predicate ValidNetwork(net: Network) {
    forall t :: t in net.configs ==> ValidConfig(net.configs[t])
  }

  datatype Query = Query(token: Token, time: nat, force: bool, quotes: seq<real>)

  function RowOf(s: State, t: Token): TokenRow {
    if t in s.tokens then s.tokens[t] else NEW_TOKEN
  }

  /** The cache serves a confident price younger than five minutes. */
  predicate Cached(s: State, q: Query) {
    && !q.force && q.time - RowOf(s, q.token).lastUpdate < PRICE_CACHE_DURATION
    && RowOf(s, q.token).confidence > MIN_CONFIDENCE_THRESHOLD
  }

  predicate Reliable(p: Priced) {
    p.price > 0.0 && p.confidence > MIN_CONFIDENCE_THRESHOLD
  }

  function Store(s: State, q: Query, p: Priced): State {
    State(s.tokens[q.token := TokenRow(p.price, p.confidence, q.time)], s.updates[(q.token, q.time) := p])
  }

  /** `getTokenPriceUSD`: the new state and the price returned. */
  function Ask(net: Network, s: State, q: Query): (State, real) {
    if q.token !in net.configs then (s, 0.0)
    else
      var row, s1 := RowOf(s, q.token), s.(tokens := s.tokens[q.token := RowOf(s, q.token)]);
      var found := FromSources(net.configs[q.token], q.quotes);
      if Cached(s, q) then (s1, row.derivedUSD)
      else if Reliable(found) then (Store(s1, q, found), found.price)
      else if q.token in net.critical then
        (Store(s1, q, Priced(STABLECOIN_FALLBACK_PRICE, STABLECOIN_FALLBACK_CONFIDENCE)), STABLECOIN_FALLBACK_PRICE)
      else (s1, 0.0)
  }

  function Run(net: Network, qs: seq<Query>): State {
    if qs == [] then EMPTY else Ask(net, Run(net, qs[..|qs| - 1]), qs[|qs| - 1]).0
  }

  /** Never priced so far, or holding a confident in-band price that its own PriceUpdate row recorded. */
  predicate RowOk(net: Network, s: State, t: Token)
    requires t in s.tokens
  {
    && t in net.configs
    && var row := s.tokens[t];
       row == NEW_TOKEN ||
       (InBand(net.configs[t].symbol, row.derivedUSD) && row.confidence > MIN_CONFIDENCE_THRESHOLD
           && row.lastUpdate >= 0
        && (t, row.lastUpdate) in s.updates && s.updates[(t, row.lastUpdate)] == Priced(row.derivedUSD, row.confidence))
  }

  predicate Good(net: Network, s: State) {
    && (forall t :: t in s.tokens ==> RowOk(net, s, t))
    && (forall k :: k in s.updates ==> k.0 in net.configs && InBand(net.configs[k.0].symbol, s.updates[k].price))
  }

  lemma AskKeepsGood(net: Network, s: State, q: Query)
    requires ValidNetwork(net) && Good(net, s)
    ensures Good(net, Ask(net, s, q).0)
  {
    if q.token in net.configs {
      AverageInBand(net.configs[q.token], q.quotes);
    }
  }

  /** After every run each stored price is zero or strictly inside its token's band, and so is each PriceUpdate. */
  lemma {:induction false} StoredPricesInBand(net: Network, qs: seq<Query>)
    requires ValidNetwork(net)
    ensures Good(net, Run(net, qs))
  {
    if qs != [] {
      StoredPricesInBand(net, qs[..|qs| - 1]);
      AskKeepsGood(net, Run(net, qs[..|qs| - 1]), qs[|qs| - 1]);
    }
  }

  /**
   Every price ever returned is in band unless the token is unknown or has neither cache, reliable average nor
   fallback.
   */
  lemma ReturnedPrice(net: Network, qs: seq<Query>, q: Query)
    requires ValidNetwork(net)
    ensures var s, price := Run(net, qs), Ask(net, Run(net, qs), q).1;
            if q.token in net.configs
                && (Cached(s, q) || q.token in net.critical || Reliable(FromSources(net.configs[q.token], q.quotes)))
            then price > 0.0 && InBand(net.configs[q.token].symbol, price)
            else price == 0.0
  {
    StoredPricesInBand(net, qs);
    if q.token in net.configs {
      AverageInBand(net.configs[q.token], q.quotes);
    }
  }

  predicate InOrder(qs: seq<Query>) {
    forall i, j :: 0 <= i < j < |qs| ==> qs[i].time <= qs[j].time
  }

  lemma {:induction false} RowsAreFromTheRun(net: Network, qs: seq<Query>, t: Token)
    ensures RowOf(Run(net, qs), t) == NEW_TOKEN
        || exists i :: 0 <= i < |qs| && qs[i].token == t && qs[i].time == RowOf(Run(net, qs), t).lastUpdate
  {
    if qs != [] {
      var init, s := qs[..|qs| - 1], Run(net, qs);
      RowsAreFromTheRun(net, init, t);
      if RowOf(s, t) == RowOf(Run(net, init), t) {
        if RowOf(s, t) != NEW_TOKEN {
          var i :| 0 <= i < |init| && init[i].token == t && init[i].time == RowOf(s, t).lastUpdate;
          assert qs[i].token == t && qs[i].time == RowOf(s, t).lastUpdate;
        }
      } else {
        assert qs[|qs| - 1].token == t && qs[|qs| - 1].time == RowOf(s, t).lastUpdate;
      }
    }
  }

  /** With block times in order, a cache hit returns a non-zero price recorded less than 300 seconds before. */
  lemma CacheHitIsFresh(net: Network, qs: seq<Query>, q: Query)
    requires ValidNetwork(net) && InOrder(qs + [q]) && q.token in net.configs && Cached(Run(net, qs), q)
    ensures var s, price := Run(net, qs), Ask(net, Run(net, qs), q).1;
            exists t: nat :: q.time - 300 < t <= q.time && (q.token, t) in s.updates
                && s.updates[(q.token, t)].price == price > 0.0
  {
    var s := Run(net, qs);
    var row := RowOf(s, q.token);
    StoredPricesInBand(net, qs);
    RowsAreFromTheRun(net, qs, q.token);
    var i :| 0 <= i < |qs| && qs[i].token == q.token && qs[i].time == row.lastUpdate;
    var all := qs + [q];
    assert all[i] == qs[i] && all[|qs|] == q;
    assert RowOk(net, s, q.token);
    assert (q.token, row.lastUpdate) in s.updates;
  }

  /**
   Once a price is stored, later queries that do not force a refresh leave it alone for 300 seconds, whatever the
   sources would answer.
   */
  lemma {:induction false} PriceStandsForFiveMinutes(net: Network, qs: seq<Query>, later: seq<Query>, t: Token)
    requires ValidNetwork(net) && RowOf(Run(net, qs), t).confidence > MIN_CONFIDENCE_THRESHOLD
    requires forall i :: 0 <= i < |later| && later[i].token == t ==>
               !later[i].force && later[i].time < RowOf(Run(net, qs), t).lastUpdate + PRICE_CACHE_DURATION
    ensures RowOf(Run(net, qs + later), t) == RowOf(Run(net, qs), t)
  {
    if later == [] {
      assert qs + later == qs;
    } else {
      var init, q := later[..|later| - 1], later[|later| - 1];
      PriceStandsForFiveMinutes(net, qs, init, t);
      var all := qs + later;
      assert all[..|all| - 1] == qs + init && all[|all| - 1] == q;
    }
  }

  // ----- the store ---------------------------------------------------------

  method WeightedTotals(valid: seq<Priced>) returns (weightedSum: real, totalConfidence: real)
    ensures weightedSum == SumWeighted(valid) && totalConfidence == SumConfidences(valid)
  {
    weightedSum, totalConfidence := 0.0, 0.0;
    for i := 0 to |valid|
      invariant weightedSum == SumWeighted(valid[..i]) && totalConfidence == SumConfidences(valid[..i])
    {
      assert valid[..i + 1][..i] == valid[..i];
      weightedSum := weightedSum + valid[i].price * valid[i].confidence;
      totalConfidence := totalConfidence + valid[i].confidence;
    }
    assert valid[..|valid|] == valid;
  }

  method PlainTotal(valid: seq<Priced>) returns (sum: real)
    ensures sum == SumPrices(valid)
  {
    sum := 0.0;
    for i := 0 to |valid|
      invariant sum == SumPrices(valid[..i])
    {
      assert valid[..i + 1][..i] == valid[..i];
      sum := sum + valid[i].price;
    }
    assert valid[..|valid|] == valid;
  }

  /** `getPriceFromSources`. */
  method GetPriceFromSources(config: TokenConfig, quotes: seq<real>) returns (r: Priced)
    ensures r == FromSources(config, quotes)
  {
    var valid: seq<Priced> := [];
    for i := 0 to |config.sources|
      invariant valid == Accepted(config, quotes, i)
    {
      var p := FromSource(config.symbol, config.sources[i], Quote(quotes, i));
      if p.price > 0.0 {
        valid := valid + [p];
      }
    }
    if |valid| == 0 {
      return NOTHING;
    }
    if |valid| == 1 {
      return valid[0];
    }
    var weightedSum, totalConfidence := WeightedTotals(valid);
    if totalConfidence == 0.0 {
      var sum := PlainTotal(valid);
      return Priced(sum / |valid| as real, 0.5);
    }
    return Priced(weightedSum / totalConfidence, totalConfidence / |valid| as real);
  }

  /** The Token and PriceUpdate tables. */
  class PriceStore {
    const net: Network
    var tokens: map<Token, TokenRow>
    var updates: map<(Token, nat), Priced>

    ghost function Abs(): State
      reads this
    {
      State(tokens, updates)
    }

    constructor (net: Network)
      ensures Abs() == EMPTY && this.net == net
    {
      this.net, tokens, updates := net, map[], map[];
    }

    method UpdateToken(token: Token, p: Priced, time: nat)
      modifies this
      ensures Abs() == Store(old(Abs()), Query(token, time, true, []), p)
    {
      tokens := tokens[token := TokenRow(p.price, p.confidence, time)];
      updates := updates[(token, time) := p];
    }

    method IsCritical(token: Token) returns (critical: bool)
      ensures critical <==> token in net.critical
    {
      for i := 0 to |net.critical|
        invariant token !in net.critical[..i]
      {
        if net.critical[i] == token {
          return true;
        }
      }
      return false;
    }

    method GetTokenPriceUSD(token: Token, time: nat, force: bool, quotes: seq<real>) returns (price: real)
      modifies this
      ensures (Abs(), price) == Ask(net, old(Abs()), Query(token, time, force, quotes))
    {
      if token !in net.configs {
        return 0.0;
      }
      if token !in tokens {
        tokens := tokens[token := TokenRow(0.0, 0.0, 0)];
      }
      var row := tokens[token];
      assert tokens == old(tokens)[token := RowOf(old(Abs()), token)];
      if !force && time - row.lastUpdate < PRICE_CACHE_DURATION && row.confidence > MIN_CONFIDENCE_THRESHOLD {
        return row.derivedUSD;
      }
      var found := GetPriceFromSources(net.configs[token], quotes);
      if found.price > 0.0 && found.confidence > MIN_CONFIDENCE_THRESHOLD {
        UpdateToken(token, found, time);
        return found.price;
      }
      var critical := IsCritical(token);
      if critical {
        UpdateToken(token, Priced(STABLECOIN_FALLBACK_PRICE, STABLECOIN_FALLBACK_CONFIDENCE), time);
        return STABLECOIN_FALLBACK_PRICE;
      }
      return 0.0;
    }
  }
}
