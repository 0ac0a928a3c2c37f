/** The figures of the OLAS-ETH pool read off its events: reserves, price, USD values, and the fees of each swap. */
module LiquidityFigures {
  import opened Collections
  import opened Liquidity

  // ----- division ----------------------------------------------------------

  /** `q` is n over d rounded towards zero: the rest is smaller than `d` and has the sign of `n`. */
  predicate IsQuotient(n: int, d: int, q: int) {
    var rest := n - q * d;
    && (d > 0 ==> 0 - d < rest < d) && (d < 0 ==> d < rest < 0 - d)
    && (n >= 0 ==> rest >= 0) && (n <= 0 ==> rest <= 0)
  }

  lemma FloorIsQuotient(n: nat, d: int)
    requires d != 0
    ensures 0 <= n - n / d * d && (d > 0 ==> n - n / d * d < d) && (d < 0 ==> n - n / d * d < 0 - d)
  {
    assert n == d * (n / d) + n % d;
  }

  /** The BigInt division of the formulas rounds towards zero. */
  lemma DivTruncates(n: int, d: int)
    requires d != 0
    ensures IsQuotient(n, d, Div(n, d))
  {
    if n < 0 {
      FloorIsQuotient(0 - n, d);
      var q := (0 - n) / d;
      assert Div(n, d) == 0 - q && (0 - q) * d == 0 - q * d;
    } else {
      FloorIsQuotient(n, d);
    }
  }

  // ----- reserves ----------------------------------------------------------

  ghost predicate SyncedSince(es: seq<Event>, first: nat) {
    exists j :: first <= j < |es| && es[j].Sync?
  }

  lemma SyncedPrefix(es: seq<Event>, first: nat)
    requires first < |es| && !SyncedSince(es, first)
    ensures !SyncedSince(es[..|es| - 1], first) && !es[|es| - 1].Sync?
  {
    assert forall j :: 0 <= j < |es| - 1 ==> es[..|es| - 1][j] == es[j];
  }

  /** The stored reserves are those of the last Sync event. */
  lemma {:induction false} ReservesOfLastSync(treasury: Address, es: seq<Event>, i: nat)
    requires i < |es| && es[i].Sync? && !SyncedSince(es, i + 1)
    ensures Run(treasury, es).reserve0 == es[i].reserve0 && Run(treasury, es).reserve1 == es[i].reserve1
    decreases |es|
  {
    if i < |es| - 1 {
      SyncedPrefix(es, i + 1);
      ReservesOfLastSync(treasury, es[..|es| - 1], i);
    }
  }

  // ----- the ETH/USD price -------------------------------------------------

  /** Event `i` replaces the price: none is stored or the stored one is over an hour old, and the answer is positive. */
  ghost predicate RefreshedAt(treasury: Address, es: seq<Event>, i: nat)
    requires i < |es|
  {
    var feed := Run(treasury, es[..i]).feed;
    && es[i].Sync? && es[i].answer.Some? && es[i].answer.value > 0
    && (feed.None? || es[i].time - feed.value.updatedAt > 3600)
  }

  ghost predicate RefreshedSince(treasury: Address, es: seq<Event>, first: nat) {
    exists j: nat :: first <= j < |es| && RefreshedAt(treasury, es, j)
  }

  lemma RefreshedAtPrefix(treasury: Address, es: seq<Event>, j: nat)
    requires j < |es| - 1
    ensures RefreshedAt(treasury, es, j) == RefreshedAt(treasury, es[..|es| - 1], j)
  {
    assert es[..|es| - 1][..j] == es[..j];
  }

  lemma RefreshedPrefix(treasury: Address, es: seq<Event>, first: nat)
    requires first < |es| && !RefreshedSince(treasury, es, first)
    ensures !RefreshedSince(treasury, es[..|es| - 1], first) && !RefreshedAt(treasury, es, |es| - 1)
  {
    var init := es[..|es| - 1];
    assert !RefreshedAt(treasury, es, |es| - 1);
    if RefreshedSince(treasury, init, first) {
      var j: nat :| first <= j < |init| && RefreshedAt(treasury, init, j);
      RefreshedAtPrefix(treasury, es, j);
    }
  }

  lemma FeedNext(treasury: Address, es: seq<Event>)
    requires es != []
    ensures var n := |es| - 1;
            Run(treasury, es).feed == if RefreshedAt(treasury, es, n) then Some(Price(es[n].answer.value, es[n].time))
                                      else Run(treasury, es[..n]).feed
  {
  }

  /** The stored ETH/USD price is the answer of the last refresh. */
  lemma {:induction false} PriceOfLastRefresh(treasury: Address, es: seq<Event>, i: nat)
    requires i < |es| && RefreshedAt(treasury, es, i) && !RefreshedSince(treasury, es, i + 1)
    ensures Run(treasury, es).feed == Some(Price(es[i].answer.value, es[i].time))
    decreases |es|
  {
    FeedNext(treasury, es);
    if i < |es| - 1 {
      var init := es[..|es| - 1];
      RefreshedAtPrefix(treasury, es, i);
      RefreshedPrefix(treasury, es, i + 1);
      PriceOfLastRefresh(treasury, init, i);
    }
  }

  lemma {:induction false} UnrefreshedHasNoPrice(treasury: Address, es: seq<Event>)
    requires !RefreshedSince(treasury, es, 0)
    ensures Run(treasury, es).feed == None
  {
    if es != [] {
      FeedNext(treasury, es);
      RefreshedPrefix(treasury, es, 0);
      UnrefreshedHasNoPrice(treasury, es[..|es| - 1]);
    }
  }

  // ----- share and USD values ----------------------------------------------

  lemma QuotientOf(n: int, d: int, q: int)
    requires d != 0 && q == Div(n, d)
    ensures IsQuotient(n, d, q)
  {
    DivTruncates(n, d);
  }

  /** The percentage is the holdings over the supply in basis points. */
  predicate IsPercentage(treasury: int, supply: int, percentage: int) {
    if supply == 0 then percentage == 0 else IsQuotient(treasury * 10000, supply, percentage)
  }

  /** A pool is worth twice its ETH reserve at the price. */
  predicate IsPoolUsd(reserve1: int, price: int, usd: int) {
    IsQuotient(2 * reserve1 * price, 1_000_000_000_000_000_000, usd)
  }

  predicate IsShare(usd: int, percentage: int, share: int) {
    IsQuotient(usd * percentage, 10000, share)
  }

  lemma PercentageIs(treasury: int, supply: int)
    ensures IsPercentage(treasury, supply, BasisPoints(treasury, supply))
  {
    if supply != 0 {
      QuotientOf(treasury * BASIS_POINTS, supply, BasisPoints(treasury, supply));
    }
  }

  lemma PoolUsdIs(reserve1: int, price: int)
    ensures IsPoolUsd(reserve1, price, PoolUsd(reserve1, price))
  {
    QuotientOf(2 * reserve1 * price, WEI, PoolUsd(reserve1, price));
  }

  lemma ShareIs(usd: int, percentage: int)
    ensures IsShare(usd, percentage, Share(usd, percentage))
  {
    QuotientOf(usd * percentage, BASIS_POINTS, Share(usd, percentage));
  }

  /** In every run the percentage, the value of the pool and the protocol's part of it are right. */
  lemma UsdValues(treasury: Address, es: seq<Event>)
    ensures var s := Run(treasury, es);
            && IsPercentage(s.treasury, s.supply, s.percentage)
            && s.ethUsd == (if s.feed.Some? then s.feed.value.price else 0)
            && IsPoolUsd(s.reserve1, s.ethUsd, s.poolUsd)
            && IsShare(s.poolUsd, s.percentage, s.protocolUsd)
  {
    var s := Run(treasury, es);
    PercentageFormula(treasury, es);
    UsdFormulas(treasury, es);
    PercentageIs(s.treasury, s.supply);
    PoolUsdIs(s.reserve1, s.ethUsd);
    ShareIs(s.poolUsd, s.percentage);
  }

  // ----- the fees of one swap ----------------------------------------------

  /** The fee of an amount: 0.3 percent, rounded down. */
  predicate IsFee(amountIn: nat, fee: int) {
    0 <= 3 * amountIn - 1000 * fee < 1000
  }

  /** A fee in ETH is worth `usd`. */
  predicate EthWorth(price: int, fee: int, usd: int) {
    if fee == 0 then usd == 0 else IsQuotient(fee * price, 1_000_000_000_000_000_000, usd)
  }

  /** A fee in OLAS is worth `inEth` at the ratio of the reserves. */
  predicate OlasWorth(reserve0: int, reserve1: int, fee: int, inEth: int) {
    if fee == 0 then inEth == 0 else reserve0 != 0 && IsQuotient(fee * reserve1, reserve0, inEth)
  }

  /** Every price needed is known. */
  predicate Valued(s: State, fee0: int, fee1: int) {
    (fee0 == 0 && fee1 == 0) || (s.ethUsd > 0 && (fee0 == 0 || (s.reserve0 > 0 && s.reserve1 > 0)))
  }

  /** What a swap adds to its day and to the totals. */
  ghost predicate Adds(s: State, s': State, day: nat, add: Daily) {
    var d, d' := DailyOf(s, day), DailyOf(s', day);
    && day in s'.daily && s'.daily - {day} == s.daily - {day}
    && d'.fees0 == d.fees0 + add.fees0 && d'.fees1 == d.fees1 + add.fees1 && d'.swaps == d.swaps + add.swaps
    && d'.usd == d.usd + add.usd && d'.protocol == d.protocol + add.protocol && d'.external == d.external + add.external
    && s'.feesUsd == s.feesUsd + add.usd && s'.protocolFeesUsd == s.protocolFeesUsd + add.protocol
    && s'.externalFeesUsd == s.externalFeesUsd + add.external
  }

  lemma FloorOf(n: int, d: int)
    requires n >= 0 && d > 0
    ensures IsQuotient(n, d, n / d) && n / d >= 0
  {
    FloorIsQuotient(n, d);
    QuotientNonNegative(n, d);
  }

  lemma EthValue(price: int, fee: int)
    requires price >= 0 && fee >= 0
    ensures EthWorth(price, fee, if fee > 0 then fee * price / WEI else 0)
  {
    assert fee * price >= 0;
    FloorOf(fee * price, WEI);
  }

  lemma OlasValue(reserve0: int, reserve1: int, fee: int)
    requires reserve1 >= 0 && fee >= 0 && (fee > 0 ==> reserve0 > 0)
    ensures OlasWorth(reserve0, reserve1, fee, if fee > 0 then fee * reserve1 / reserve0 else 0)
    ensures fee > 0 ==> fee * reserve1 / reserve0 >= 0
  {
    if fee > 0 {
      assert fee * reserve1 >= 0;
      FloorOf(fee * reserve1, reserve0);
    }
  }

  lemma WorthOfNothing(price: int)
    ensures EthWorth(price, 0, 0) && 0 * price / WEI == 0
  {
  }

  /** The USD value of the two fees of a swap, with the ETH value of the first. */
  lemma FeeValue(s: State, fee0: int, fee1: int) returns (inEth: int, usd0: int, usd1: int)
    requires UsdAgrees(s) && Priceable(s, fee0, fee1) && fee0 >= 0 && fee1 >= 0
    ensures OlasWorth(s.reserve0, s.reserve1, fee0, inEth) && EthWorth(s.ethUsd, inEth, usd0)
    ensures EthWorth(s.ethUsd, fee1, usd1) && FeeUsd(s, fee0, fee1) == usd0 + usd1
  {
    inEth := if fee0 > 0 then fee0 * s.reserve1 / s.reserve0 else 0;
    usd0 := if fee0 > 0 then inEth * s.ethUsd / WEI else 0;
    usd1 := if fee1 > 0 then fee1 * s.ethUsd / WEI else 0;
    OlasValue(s.reserve0, s.reserve1, fee0);
    EthValue(s.ethUsd, inEth);
    EthValue(s.ethUsd, fee1);
    WorthOfNothing(s.ethUsd);
  }

  lemma FeeIs(amountIn: nat)
    ensures IsFee(amountIn, Fee(amountIn)) && Fee(amountIn) >= 0
  {
  }

  /** What `SwapFees` adds, in terms of the value of its fees. */
  lemma SwapAdds(s: State, amount0In: nat, amount1In: nat, time: nat)
    ensures var fee0, fee1 := Fee(amount0In), Fee(amount1In);
            var usd := if Priceable(s, fee0, fee1) then FeeUsd(s, fee0, fee1) else 0;
            var protocol := if Priceable(s, fee0, fee1) then Share(usd, s.percentage) else 0;
            Adds(s, SwapFees(s, amount0In, amount1In, time), DayStart(time),
                 Daily(fee0, fee1, usd, protocol, usd - protocol, 1))
  {
  }

  /**
   A swap adds 0.3 percent of each amount to the fees of its UTC day and, when every price it needs is known,
   their USD value and the protocol's share of it to the day and to the totals; otherwise no USD value.
   */
  lemma SwapFigures(treasury: Address, es: seq<Event>, k: nat)
    returns (day: nat, add: Daily, inEth: int, usd0: int, usd1: int)
    requires k < |es| && es[k].Swap?
    ensures day % 86400 == 0 && day <= es[k].time < day + 86400
    ensures IsFee(es[k].amount0In, add.fees0) && IsFee(es[k].amount1In, add.fees1) && add.swaps == 1
    ensures add.external == add.usd - add.protocol
    ensures var s := Run(treasury, es[..k]);
            if Valued(s, add.fees0, add.fees1) then
              && OlasWorth(s.reserve0, s.reserve1, add.fees0, inEth) && EthWorth(s.ethUsd, inEth, usd0)
              && EthWorth(s.ethUsd, add.fees1, usd1) && add.usd == usd0 + usd1
              && IsShare(add.usd, s.percentage, add.protocol)
            else add.usd == add.protocol == 0
    ensures Adds(Run(treasury, es[..k]), Run(treasury, es[..k + 1]), day, add)
  {
    var s, e := Run(treasury, es[..k]), es[k];
    assert es[..k + 1][..k] == es[..k];
    UsdFormulas(treasury, es[..k]);
    day := DayStart(e.time);
    var fee0, fee1 := Fee(e.amount0In), Fee(e.amount1In);
    FeeIs(e.amount0In);
    FeeIs(e.amount1In);
    DayStartBounds(e.time);
    inEth, usd0, usd1 := 0, 0, 0;
    var usd, protocol := 0, 0;
    if Priceable(s, fee0, fee1) {
      inEth, usd0, usd1 := FeeValue(s, fee0, fee1);
      usd := FeeUsd(s, fee0, fee1);
      protocol := Share(usd, s.percentage);
      ShareIs(usd, s.percentage);
    }
    add := Daily(fee0, fee1, usd, protocol, usd - protocol, 1);
    SwapAdds(s, e.amount0In, e.amount1In, e.time);
  }

  predicate SwapsOn(e: Event, day: nat) {
    e.Swap? && day <= e.time < day + 86400
  }

  function SwapCount(es: seq<Event>, day: nat): nat {
    if es == [] then 0 else SwapCount(es[..|es| - 1], day) + (if SwapsOn(es[|es| - 1], day) then 1 else 0)
  }

  /** The record of a UTC day counts the swaps of that day. */
  lemma {:induction false} DailySwaps(treasury: Address, es: seq<Event>, day: nat)
    requires day % 86400 == 0
    ensures DailyOf(Run(treasury, es), day).swaps == SwapCount(es, day)
  {
    if es != [] {
      DailySwaps(treasury, es[..|es| - 1], day);
      if es[|es| - 1].Swap? {
        DayStartIs(es[|es| - 1].time, day);
      }
    }
  }
}
