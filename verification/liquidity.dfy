/** Protocol-owned liquidity of the OLAS-ETH pool: treasury share, USD values and swap fees. */
module Liquidity {
  import opened Collections
  import Holders

  type Address = nat

  const BASIS_POINTS := 10000
  const WEI := 1000000000000000000
  const PRICE_STALENESS_THRESHOLD := 3600
  const SWAP_FEE_NUMERATOR := 3
  const SWAP_FEE_DENOMINATOR := 1000

  datatype Daily = Daily(fees0: int, fees1: int, usd: int, protocol: int, external: int, swaps: int)

  /** PriceData of the ETH/USD feed. */
  datatype Price = Price(price: int, updatedAt: int)

  datatype State = State(
    treasury: int,           // TreasuryHoldings.currentBalance
    supply: int,
    treasurySupply: int,
    percentage: int,
    reserve0: int,
    reserve1: int,
    feed: Option<Price>,
    ethUsd: int,
    poolUsd: int,
    protocolUsd: int,
    feesUsd: int,
    protocolFeesUsd: int,
    externalFeesUsd: int,
    daily: map<nat, Daily>)

  const EMPTY := State(0, 0, 0, 0, 0, 0, None, 0, 0, 0, 0, 0, 0, map[])
  const NEW_DAY := Daily(0, 0, 0, 0, 0, 0)

  // ----- formulas ----------------------------------------------------------

  /** BigInt division, which rounds towards zero. */
  function Div(n: int, d: int): int
    requires d != 0
  {
    if n < 0 then 0 - (0 - n) / d else n / d
  }

  function BasisPoints(numerator: int, denominator: int): int {
    if denominator == 0 then 0 else Div(numerator * BASIS_POINTS, denominator)
  }

  function PoolUsd(reserve1: int, price: int): int {
    Div(2 * reserve1 * price, WEI)
  }

  function Share(usd: int, percentage: int): int {
    Div(usd * percentage, BASIS_POINTS)
  }

  function Fee(amountIn: nat): int {
    amountIn * SWAP_FEE_NUMERATOR / SWAP_FEE_DENOMINATOR
  }

  // ----- handlers ----------------------------------------------------------

  datatype Event =
    | LpTransfer(from: Address, to: Address, value: nat)
    | Sync(reserve0: nat, reserve1: nat, time: nat, answer: Option<int>)
    | Swap(amount0In: nat, amount1In: nat, time: nat)

  /** `recalculateUsd`. */
  function Recalculate(s: State): State {
    if s.feed.Some? && s.feed.value.price > 0 then
      var pool := PoolUsd(s.reserve1, s.feed.value.price);
      s.(ethUsd := s.feed.value.price, poolUsd := pool, protocolUsd := Share(pool, s.percentage))
    else s
  }

  /** A transfer to the treasury counts as incoming even when the treasury sent it. */
  function TreasuryDelta(treasury: Address, from: Address, to: Address, value: nat): int {
    if to == treasury then value else if from == treasury then 0 - value else 0
  }

  function SupplyDelta(from: Address, to: Address, value: nat): int {
    if from == Holders.ZERO then value else if to == Holders.ZERO then 0 - value else 0
  }

  function TransferLp(treasury: Address, s: State, from: Address, to: Address, value: nat): State {
    var held := s.treasury + TreasuryDelta(treasury, from, to, value);
    var supply := s.supply + SupplyDelta(from, to, value);
    Recalculate(s.(treasury := held, supply := supply, treasurySupply := held, percentage := BasisPoints(held, supply)))
  }

  /** `refreshChainlinkPrice`: only a stale price is replaced, and only by a positive answer. */
  function Refresh(feed: Option<Price>, time: int, answer: Option<int>): Option<Price> {
    if (feed.None? || time - feed.value.updatedAt > PRICE_STALENESS_THRESHOLD) && answer.Some? && answer.value > 0
    then Some(Price(answer.value, time)) else feed
  }

  function SyncPool(s: State, reserve0: nat, reserve1: nat, time: nat, answer: Option<int>): State {
    Recalculate(s.(feed := Refresh(s.feed, time, answer), reserve0 := reserve0, reserve1 := reserve1))
  }

  /** Fees are valued only when every price they need is known. */
  predicate Priceable(s: State, fee0: int, fee1: int) {
    && (fee1 == 0 || s.ethUsd > 0)
    && (fee0 == 0 || (s.ethUsd > 0 && s.reserve0 > 0 && s.reserve1 > 0))
  }

  function FeeUsd(s: State, fee0: int, fee1: int): int
    requires Priceable(s, fee0, fee1)
  {
    (if fee1 > 0 then fee1 * s.ethUsd / WEI else 0)
    + (if fee0 > 0 && s.reserve0 > 0 then fee0 * s.reserve1 / s.reserve0 * s.ethUsd / WEI else 0)
  }

  function DailyOf(s: State, day: nat): Daily {
    if day in s.daily then s.daily[day] else NEW_DAY
  }

  function SwapFees(s: State, amount0In: nat, amount1In: nat, time: nat): State {
    var fee0, fee1, day := Fee(amount0In), Fee(amount1In), DayStart(time);
    var d := DailyOf(s, day);
    if Priceable(s, fee0, fee1) then
      var usd := FeeUsd(s, fee0, fee1);
      var protocol := Share(usd, s.percentage);
      s.(daily := s.daily[day := Daily(d.fees0 + fee0, d.fees1 + fee1, d.usd + usd, d.protocol + protocol,
                                       d.external + (usd - protocol), d.swaps + 1)],
         feesUsd := s.feesUsd + usd, protocolFeesUsd := s.protocolFeesUsd + protocol,
         externalFeesUsd := s.externalFeesUsd + (usd - protocol))
    else s.(daily := s.daily[day := d.(fees0 := d.fees0 + fee0, fees1 := d.fees1 + fee1, swaps := d.swaps + 1)])
  }

  function Step(treasury: Address, s: State, e: Event): State {
    match e
    case LpTransfer(from, to, value) => TransferLp(treasury, s, from, to, value)
    case Sync(reserve0, reserve1, time, answer) => SyncPool(s, reserve0, reserve1, time, answer)
    case Swap(amount0In, amount1In, time) => SwapFees(s, amount0In, amount1In, time)
  }

  function Run(treasury: Address, es: seq<Event>): State {
    if es == [] then EMPTY else Step(treasury, Run(treasury, es[..|es| - 1]), es[|es| - 1])
  }

  // ----- treasury share ----------------------------------------------------

  /** The LP-token transfers of a run, as the token contract sees them. */
  function Transfers(es: seq<Event>): seq<Holders.Transfer> {
    if es == [] then []
    else
      var e := es[|es| - 1];
      Transfers(es[..|es| - 1]) + (if e.LpTransfer? then [Holders.Transfer(e.from, e.to, e.value)] else [])
  }

  function SelfTransferred(treasury: Address, es: seq<Event>): int {
    if es == [] then 0
    else
      var e := es[|es| - 1];
      SelfTransferred(treasury, es[..|es| - 1])
      + (if e.LpTransfer? && e.from == treasury && e.to == treasury then e.value else 0)
  }

  lemma TransfersStep(es: seq<Event>)
    requires es != []
    ensures var init, e := es[..|es| - 1], es[|es| - 1];
            if e.LpTransfer? then
              Transfers(es) != [] && Transfers(es)[..|Transfers(es)| - 1] == Transfers(init)
              && Transfers(es)[|Transfers(es)| - 1] == Holders.Transfer(e.from, e.to, e.value)
            else Transfers(es) == Transfers(init)
  {
  }

  /** The treasury balance kept is its token balance plus whatever it sent itself. */
  lemma {:induction false} TreasuryIsBalancePlusSelf(treasury: Address, es: seq<Event>)
    requires treasury != Holders.ZERO
    ensures Run(treasury, es).treasury == Holders.NetFlow(Transfers(es), treasury) + SelfTransferred(treasury, es)
  {
    if es != [] {
      TreasuryIsBalancePlusSelf(treasury, es[..|es| - 1]);
      TransfersStep(es);
    }
  }

  /** The supply kept is the holder ledger's. */
  lemma {:induction false} SupplyIsLedgerSupply(treasury: Address, es: seq<Event>)
    ensures Run(treasury, es).supply == Holders.Run(treasury, Transfers(es)).supply
  {
    if es != [] {
      SupplyIsLedgerSupply(treasury, es[..|es| - 1]);
      TransfersStep(es);
    }
  }

  lemma {:induction false} TotalNonNegative<K>(m: map<K, int>)
    requires forall k :: k in m ==> m[k] >= 0
    ensures Total(m) >= 0
    decreases |m|
  {
    if m != map[] {
      var k :| k in m;
      TotalRemove(m, k);
      TotalNonNegative(m - {k});
    }
  }

  lemma OneOfTotal<K>(m: map<K, int>, k: K)
    requires forall j :: j in m ==> m[j] >= 0
    ensures k in m ==> m[k] <= Total(m)
    ensures Total(m) >= 0
  {
    TotalNonNegative(m);
    if k in m {
      TotalRemove(m, k);
      TotalNonNegative(m - {k});
    }
  }

  predicate SelfTransfer(treasury: Address, e: Event) {
    e.LpTransfer? && e.from == treasury && e.to == treasury && e.value > 0
  }

  /** LP-token histories the token contract allows, in which the treasury does not send to itself. */
  ghost predicate ValidHistory(treasury: Address, es: seq<Event>) {
    && treasury != Holders.ZERO && Holders.Funded(Transfers(es))
    && forall i :: 0 <= i < |es| ==> !SelfTransfer(treasury, es[i])
  }

  lemma {:induction false} SelfTransferredIsPositive(treasury: Address, es: seq<Event>)
    ensures SelfTransferred(treasury, es) >= 0
    ensures SelfTransferred(treasury, es) == 0 <==> forall i :: 0 <= i < |es| ==> !SelfTransfer(treasury, es[i])
  {
    if es != [] {
      var init := es[..|es| - 1];
      SelfTransferredIsPositive(treasury, init);
      assert forall i :: 0 <= i < |init| ==> init[i] == es[i];
      if SelfTransferred(treasury, es) == 0 {
        forall i | 0 <= i < |es| ensures !SelfTransfer(treasury, es[i]) {
          if i < |init| {
            assert !SelfTransfer(treasury, init[i]);
          }
        }
      } else if !SelfTransfer(treasury, es[|es| - 1]) {
        var i :| 0 <= i < |init| && SelfTransfer(treasury, init[i]);
        assert SelfTransfer(treasury, es[i]);
      }
    }
  }

  /** The treasury balance kept is the real one if and only if the treasury never sent itself a positive amount. */
  lemma TreasuryExactIff(treasury: Address, es: seq<Event>)
    requires treasury != Holders.ZERO
    ensures Run(treasury, es).treasury == Holders.NetFlow(Transfers(es), treasury)
        <==> forall i :: 0 <= i < |es| ==> !SelfTransfer(treasury, es[i])
  {
    TreasuryIsBalancePlusSelf(treasury, es);
    SelfTransferredIsPositive(treasury, es);
  }

  /** One self-transfer of everything, and the treasury is stored as holding 200 percent of the supply. */
  lemma SelfTransferOvercounts(treasury: Address, value: nat)
    requires treasury != Holders.ZERO && value > 0
    ensures var es := [LpTransfer(Holders.ZERO, treasury, value), LpTransfer(treasury, treasury, value)];
            Holders.Funded(Transfers(es)) && Run(treasury, es).supply == value
                && Run(treasury, es).percentage == 2 * BASIS_POINTS
  {
    var mint, self := LpTransfer(Holders.ZERO, treasury, value), LpTransfer(treasury, treasury, value);
    var es := [mint, self];
    assert es[..1] == [mint] && [mint][..0] == [];
    assert Run(treasury, []) == EMPTY;
    assert Run(treasury, [mint]) == Step(treasury, EMPTY, mint);
    assert Run(treasury, es) == Step(treasury, Run(treasury, [mint]), self);
    assert 2 * value * BASIS_POINTS == (2 * BASIS_POINTS) * value;
    DivExact(2 * BASIS_POINTS, value);
    var a, b := Holders.Transfer(Holders.ZERO, treasury, value), Holders.Transfer(treasury, treasury, value);
    assert Transfers([mint]) == [a];
    assert Transfers(es) == [a, b];
    assert [a, b][..1] == [a] && [a, b][..0] == [] && [a][..0] == [];
    assert Holders.NetFlow([a], treasury) == value;
  }

  lemma DivExact(q: nat, d: nat)
    requires d > 0
    ensures Div(q * d, d) == q
  {
    var n := q * d;
    QuotientBounds(n, d, q);
    QuotientIsExact(n, d, q);
  }

  lemma QuotientIsExact(n: nat, d: nat, q: nat)
    requires n == q * d && d > 0
    ensures n / d >= q
  {
    var z, r := n / d, n % d;
    assert n == d * z + r && r < d;
    if z < q {
      MulMonotone(d, z + 1, q);
    }
  }

  lemma MulMonotone(d: nat, x: nat, y: nat)
    requires x <= y
    ensures d * x <= d * y
  {
  }

  /** In valid histories the treasury holds part of the supply. */
  lemma TreasuryWithinSupply(treasury: Address, es: seq<Event>)
    requires ValidHistory(treasury, es)
    ensures 0 <= Run(treasury, es).treasury <= Run(treasury, es).supply
  {
    var ts := Transfers(es);
    var h := Holders.Run(treasury, ts).holders;
    TreasuryIsBalancePlusSelf(treasury, es);
    SelfTransferredIsPositive(treasury, es);
    SupplyIsLedgerSupply(treasury, es);
    Holders.SupplyIsSumOfBalances(treasury, ts);
    Holders.NoZeroToZero(ts);
    Holders.HolderCountIsExact(treasury, ts);
    Holders.HolderBalanceIsNetFlow(treasury, ts, treasury);
    OneOfTotal(h, treasury);
  }

  lemma ShareBounds(usd: int, percentage: int)
    requires usd >= 0 && 0 <= percentage <= BASIS_POINTS
    ensures 0 <= Share(usd, percentage) <= usd
  {
    assert 0 <= usd * percentage <= usd * BASIS_POINTS;
  }

  lemma BasisPointsBounds(numerator: int, denominator: int)
    requires 0 <= numerator <= denominator
    ensures 0 <= BasisPoints(numerator, denominator) <= BASIS_POINTS
  {
    if denominator > 0 {
      assert numerator * BASIS_POINTS <= denominator * BASIS_POINTS;
      QuotientBounds(numerator * BASIS_POINTS, denominator, BASIS_POINTS);
    }
  }

  lemma QuotientBounds(n: int, d: int, q: int)
    requires 0 <= n <= d * q && d > 0
    ensures 0 <= n / d <= q
  {
    assert d * (n / d) <= d * q;
  }

  /** The stored percentage is the formula on the stored supplies. */
  lemma {:induction false} PercentageFormula(treasury: Address, es: seq<Event>)
    ensures var s := Run(treasury, es);
            s.treasurySupply == s.treasury && s.percentage == BasisPoints(s.treasurySupply, s.supply)
  {
    if es != [] {
      PercentageFormula(treasury, es[..|es| - 1]);
    }
  }

  /** In valid histories the treasury percentage is between 0 and 100 percent. */
  lemma PercentageWithinBounds(treasury: Address, es: seq<Event>)
    requires ValidHistory(treasury, es)
    ensures 0 <= Run(treasury, es).percentage <= BASIS_POINTS
  {
    TreasuryWithinSupply(treasury, es);
    PercentageFormula(treasury, es);
    BasisPointsBounds(Run(treasury, es).treasurySupply, Run(treasury, es).supply);
  }

  // ----- USD values --------------------------------------------------------

  ghost predicate UsdAgrees(s: State) {
    && s.poolUsd == PoolUsd(s.reserve1, s.ethUsd) && s.protocolUsd == Share(s.poolUsd, s.percentage)
    && s.ethUsd >= 0 && s.reserve0 >= 0 && s.reserve1 >= 0
    && (match s.feed case None => s.ethUsd == 0 case Some(p) => s.ethUsd == p.price && p.price > 0)
  }

  lemma ZeroPriceFormulas(reserve1: int, percentage: int)
    ensures PoolUsd(reserve1, 0) == 0 && Share(0, percentage) == 0
  {
  }

  /** After every event both USD values are their formulas on the stored reserve, price and percentage. */
  lemma {:induction false} UsdFormulas(treasury: Address, es: seq<Event>)
    ensures UsdAgrees(Run(treasury, es))
  {
    if es != [] {
      UsdFormulas(treasury, es[..|es| - 1]);
      ZeroPriceFormulas(Run(treasury, es).reserve1, Run(treasury, es).percentage);
    } else {
      ZeroPriceFormulas(0, 0);
    }
  }

  // ----- fees --------------------------------------------------------------

  lemma FeeUsdNonNegative(s: State, fee0: int, fee1: int)
    requires Priceable(s, fee0, fee1) && UsdAgrees(s) && fee0 >= 0 && fee1 >= 0
    ensures FeeUsd(s, fee0, fee1) >= 0
  {
    if fee1 > 0 {
      assert fee1 * s.ethUsd >= 0;
    }
    if fee0 > 0 && s.reserve0 > 0 {
      assert fee0 * s.reserve1 >= 0;
      QuotientNonNegative(fee0 * s.reserve1, s.reserve0);
      var inEth := fee0 * s.reserve1 / s.reserve0;
      assert inEth * s.ethUsd >= 0;
    }
  }

  lemma QuotientNonNegative(n: int, d: int)
    requires n >= 0 && d > 0
    ensures n / d >= 0
  {
  }

  ghost predicate FeesSplit(s: State) {
    && s.protocolFeesUsd + s.externalFeesUsd == s.feesUsd && s.protocolFeesUsd >= 0 && s.externalFeesUsd >= 0
    && forall day :: day in s.daily ==>
         var d := s.daily[day];
         d.protocol + d.external == d.usd && d.protocol >= 0 && d.external >= 0
  }

  lemma {:induction false} TransfersPrefix(es: seq<Event>)
    requires es != []
    ensures |Transfers(es[..|es| - 1])| <= |Transfers(es)|
        && Transfers(es)[..|Transfers(es[..|es| - 1])|] == Transfers(es[..|es| - 1])
  {
  }

  lemma ValidPrefix(treasury: Address, es: seq<Event>)
    requires ValidHistory(treasury, es) && es != []
    ensures ValidHistory(treasury, es[..|es| - 1])
  {
    TransfersPrefix(es);
    var ts, t := Transfers(es), Transfers(es[..|es| - 1]);
    forall i | 0 <= i < |t| && t[i].from != Holders.ZERO ensures Holders.NetFlow(t[..i], t[i].from) >= t[i].amount {
      assert t[i] == ts[i] && t[..i] == ts[..i];
    }
  }

  /** In valid histories protocol and external fees are non-negative and add up, per day and in total. */
  lemma {:induction false} FeesAreSplit(treasury: Address, es: seq<Event>)
    requires ValidHistory(treasury, es)
    ensures FeesSplit(Run(treasury, es))
  {
    if es != [] {
      var init, e := es[..|es| - 1], es[|es| - 1];
      var s := Run(treasury, init);
      ValidPrefix(treasury, es);
      FeesAreSplit(treasury, init);
      if e.Swap? {
        var fee0, fee1 := Fee(e.amount0In), Fee(e.amount1In);
        if Priceable(s, fee0, fee1) {
          PercentageWithinBounds(treasury, init);
          UsdFormulas(treasury, init);
          FeeUsdNonNegative(s, fee0, fee1);
          ShareBounds(FeeUsd(s, fee0, fee1), s.percentage);
        }
      }
    }
  }

  function Usd(d: Daily): int { d.usd }

  function Protocol(d: Daily): int { d.protocol }

  function External(d: Daily): int { d.external }

  function Fees0(d: Daily): int { d.fees0 }

  function Fees1(d: Daily): int { d.fees1 }

  /** Saving one day's record changes the sum over the days by what that record changed. */
  lemma SaveDay(daily: map<nat, Daily>, day: nat, d: Daily, field: Daily -> int)
    requires field(NEW_DAY) == 0
    ensures var was := if day in daily then daily[day] else NEW_DAY;
            TotalBy(daily[day := d], field) == TotalBy(daily, field) - field(was) + field(d)
  {
    TotalByUpdate(daily, field, day, d);
  }

  ghost predicate SumsAgree(s: State) {
    && TotalBy(s.daily, Usd) == s.feesUsd
    && TotalBy(s.daily, Protocol) == s.protocolFeesUsd
    && TotalBy(s.daily, External) == s.externalFeesUsd
  }

  lemma SwapKeepsSums(s: State, amount0In: nat, amount1In: nat, time: nat)
    requires SumsAgree(s)
    ensures SumsAgree(SwapFees(s, amount0In, amount1In, time))
  {
    var day := DayStart(time);
    var d := SwapFees(s, amount0In, amount1In, time).daily[day];
    SaveDay(s.daily, day, d, Usd);
    SaveDay(s.daily, day, d, Protocol);
    SaveDay(s.daily, day, d, External);
  }

  /** The daily USD fees sum up to the cumulative ones, whatever the events. */
  lemma {:induction false} DailySumsAreCumulative(treasury: Address, es: seq<Event>)
    ensures SumsAgree(Run(treasury, es))
  {
    if es != [] {
      var s, e := Run(treasury, es[..|es| - 1]), es[|es| - 1];
      DailySumsAreCumulative(treasury, es[..|es| - 1]);
      if e.Swap? {
        SwapKeepsSums(s, e.amount0In, e.amount1In, e.time);
      }
    }
  }

  function Swaps(es: seq<Event>): nat {
    if es == [] then 0 else Swaps(es[..|es| - 1]) + (if es[|es| - 1].Swap? then 1 else 0)
  }

  function SumIn0(es: seq<Event>): int {
    if es == [] then 0 else SumIn0(es[..|es| - 1]) + (if es[|es| - 1].Swap? then es[|es| - 1].amount0In else 0)
  }

  function SumIn1(es: seq<Event>): int {
    if es == [] then 0 else SumIn1(es[..|es| - 1]) + (if es[|es| - 1].Swap? then es[|es| - 1].amount1In else 0)
  }

  /** Rounding never takes more than 999 thousandths of a unit per swap off the recorded token fees. */
  lemma {:induction false} TokenFeesRounding(treasury: Address, es: seq<Event>)
    ensures var d := Run(treasury, es).daily;
            && 0 <= 3 * SumIn0(es) - 1000 * TotalBy(d, Fees0) <= 999 * Swaps(es)
            && 0 <= 3 * SumIn1(es) - 1000 * TotalBy(d, Fees1) <= 999 * Swaps(es)
  {
    if es != [] {
      var s, e := Run(treasury, es[..|es| - 1]), es[|es| - 1];
      TokenFeesRounding(treasury, es[..|es| - 1]);
      if e.Swap? {
        var day := DayStart(e.time);
        SaveDay(s.daily, day, Run(treasury, es).daily[day], Fees0);
        SaveDay(s.daily, day, Run(treasury, es).daily[day], Fees1);
      }
    }
  }

  /** LPTokenMetrics, TreasuryHoldings, the ETH/USD PriceData and the DailyFees. */
  class LiquidityStore {
    const treasuryAddress: Address
    var treasury: int
    var supply: int
    var treasurySupply: int
    var percentage: int
    var reserve0: int
    var reserve1: int
    var feed: Option<Price>
    var ethUsd: int
    var poolUsd: int
    var protocolUsd: int
    var feesUsd: int
    var protocolFeesUsd: int
    var externalFeesUsd: int
    var daily: map<nat, Daily>

    ghost function Abs(): State
      reads this
    {
      State(treasury, supply, treasurySupply, percentage, reserve0, reserve1, feed, ethUsd, poolUsd, protocolUsd,
            feesUsd, protocolFeesUsd, externalFeesUsd, daily)
    }

    constructor (treasury: Address)
      ensures Abs() == EMPTY && treasuryAddress == treasury
    {
      treasuryAddress := treasury;
      this.treasury, supply, treasurySupply, percentage, reserve0, reserve1, feed := 0, 0, 0, 0, 0, 0, None;
      ethUsd, poolUsd, protocolUsd, feesUsd, protocolFeesUsd, externalFeesUsd, daily := 0, 0, 0, 0, 0, 0, map[];
    }

    method RecalculateUsd()
      modifies this
      ensures Abs() == Recalculate(old(Abs()))
    {
      if feed.Some? && feed.value.price > 0 {
        ethUsd := feed.value.price;
        poolUsd := Div(2 * reserve1 * feed.value.price, WEI);
        protocolUsd := Div(poolUsd * percentage, BASIS_POINTS);
      }
    }

    method UpdateTreasuryHoldings(amount: nat, isIncoming: bool)
      modifies this
      ensures Abs() == old(Abs()).(treasury := old(treasury) + if isIncoming then amount else 0 - amount)
    {
      if isIncoming {
        treasury := treasury + amount;
      } else {
        treasury := treasury - amount;
      }
    }

    method UpdateGlobalMetricsAfterTransfer(amount: nat, isMint: bool, isBurn: bool)
      modifies this
      ensures var was, supply := old(Abs()), old(supply) + if isMint then amount else if isBurn then 0 - amount else 0;
              Abs() == Recalculate(was.(supply := supply, treasurySupply := was.treasury,
                                        percentage := BasisPoints(was.treasury, supply)))
    {
      if isMint {
        supply := supply + amount;
      } else if isBurn {
        supply := supply - amount;
      }
      treasurySupply := treasury;
      percentage := BasisPoints(treasurySupply, supply);
      RecalculateUsd();
    }

    method HandleLPTransfer(from: Address, to: Address, value: nat)
      modifies this
      ensures Abs() == Step(treasuryAddress, old(Abs()), LpTransfer(from, to, value))
    {
      if to == treasuryAddress {
        UpdateTreasuryHoldings(value, true);
      } else if from == treasuryAddress {
        UpdateTreasuryHoldings(value, false);
      }
      UpdateGlobalMetricsAfterTransfer(value, from == Holders.ZERO, to == Holders.ZERO);
    }

    method RefreshChainlinkPrice(time: nat, answer: Option<int>)
      modifies this
      ensures Abs() == old(Abs()).(feed := Refresh(old(feed), time, answer))
    {
      var shouldRefresh := feed.None? || time - feed.value.updatedAt > PRICE_STALENESS_THRESHOLD;
      if shouldRefresh && answer.Some? {
        if answer.value > 0 {
          feed := Some(Price(answer.value, time));
        }
      }
    }

    method HandleSync(reserve0: nat, reserve1: nat, time: nat, answer: Option<int>)
      modifies this
      ensures Abs() == Step(treasuryAddress, old(Abs()), Sync(reserve0, reserve1, time, answer))
    {
      RefreshChainlinkPrice(time, answer);
      this.reserve0 := reserve0;
      this.reserve1 := reserve1;
      RecalculateUsd();
    }

    method HandleSwap(amount0In: nat, amount1In: nat, time: nat)
      modifies this
      ensures Abs() == Step(treasuryAddress, old(Abs()), Swap(amount0In, amount1In, time))
    {
      var fee0 := amount0In * SWAP_FEE_NUMERATOR / SWAP_FEE_DENOMINATOR;
      var fee1 := amount1In * SWAP_FEE_NUMERATOR / SWAP_FEE_DENOMINATOR;
      var canUpdate := (fee0 == 0 || (ethUsd > 0 && reserve0 > 0 && reserve1 > 0)) && (fee1 == 0 || ethUsd > 0);
      var usd, protocol, external := 0, 0, 0;
      if canUpdate {
        if fee1 > 0 {
          usd := usd + fee1 * ethUsd / WEI;
        }
        if fee0 > 0 {
          var inEth := fee0 * reserve1 / reserve0;
          usd := usd + inEth * ethUsd / WEI;
        }
        protocol := Div(usd * percentage, BASIS_POINTS);
        external := usd - protocol;
      }
      var day := time / DAY_SECONDS * DAY_SECONDS;
      var d := if day in daily then daily[day] else NEW_DAY;
      d := d.(fees0 := d.fees0 + fee0, fees1 := d.fees1 + fee1);
      if canUpdate {
        d := d.(usd := d.usd + usd, protocol := d.protocol + protocol, external := d.external + external);
      }
      daily := daily[day := d.(swaps := d.swaps + 1)];
      if canUpdate {
        feesUsd := feesUsd + usd;
        protocolFeesUsd := protocolFeesUsd + protocol;
        externalFeesUsd := externalFeesUsd + external;
      }
    }
  }
}
