/**
 Daily portfolio snapshots: the once-per-day scheduler, the population metric of a day,
 and the seven-day window carried from metric to metric.
 */
module Snapshots {
  import opened Collections
  import opened Medians

  type Agent = nat

  function DayOf(time: nat): nat {
    time / DAY_SECONDS
  }

  // ----- entities ----------------------------------------------------------

  /**
   The fields of an AgentPortfolioSnapshot that the population metric reads; `positions` counts open and closed ones.
   */
  datatype Snapshot = Snapshot(initialValue: real, finalValue: real, roi: real, apr: real, unrealisedPnL: real,
                               projectedUnrealisedPnL: real, ethRoi: real, ethApr: real, ethUnrealisedPnL: real,
                               ethProjectedUnrealisedPnL: real, positions: int)

  const NO_VALUES := Snapshot(0.0, 0.0, 0.0, 0.0, 0.0, 0.0, 0.0, 0.0, 0.0, 0.0, 0)

  /** The daily series of a DailyPopulationMetric; the Active ones are over the lifetime active agents. */
  datatype Series =
    | Roi | Apr | UnrealisedPnL | ProjectedUnrealisedPnL
    | EthRoi | EthApr | EthUnrealisedPnL | EthProjectedUnrealisedPnL | Aum
    | ActiveUnrealisedPnL | ActiveProjectedUnrealisedPnL
    | ActiveEthUnrealisedPnL | ActiveEthProjectedUnrealisedPnL | ActiveAum

  /** The order in which the series are computed. */
  const ALL_SERIES: seq<Series> := [
    Roi, Apr, UnrealisedPnL, ProjectedUnrealisedPnL, EthRoi, EthApr, EthUnrealisedPnL, EthProjectedUnrealisedPnL, Aum,
    ActiveUnrealisedPnL, ActiveProjectedUnrealisedPnL, ActiveEthUnrealisedPnL, ActiveEthProjectedUnrealisedPnL,
    ActiveAum]

  lemma EverySeries(series: Series)
    ensures series in ALL_SERIES
  {
    match series
    case Roi => assert ALL_SERIES[0] == series;
    case Apr => assert ALL_SERIES[1] == series;
    case UnrealisedPnL => assert ALL_SERIES[2] == series;
    case ProjectedUnrealisedPnL => assert ALL_SERIES[3] == series;
    case EthRoi => assert ALL_SERIES[4] == series;
    case EthApr => assert ALL_SERIES[5] == series;
    case EthUnrealisedPnL => assert ALL_SERIES[6] == series;
    case EthProjectedUnrealisedPnL => assert ALL_SERIES[7] == series;
    case Aum => assert ALL_SERIES[8] == series;
    case ActiveUnrealisedPnL => assert ALL_SERIES[9] == series;
    case ActiveProjectedUnrealisedPnL => assert ALL_SERIES[10] == series;
    case ActiveEthUnrealisedPnL => assert ALL_SERIES[11] == series;
    case ActiveEthProjectedUnrealisedPnL => assert ALL_SERIES[12] == series;
    case ActiveAum => assert ALL_SERIES[13] == series;
  }

  /** One series of a day: the median, its window and the window's mean. */
  datatype Row = Row(median: real, window: seq<real>, sma: real)

  /** DailyPopulationMetric: a row per series and the numbers of agents. */
  datatype Metric = Metric(rows: map<Series, Row>, totalAgents: nat, activeAgents: nat)

  const NO_ROW := Row(0.0, [], 0.0)

  function At(rows: map<Series, Row>, series: Series): Row {
    if series in rows then rows[series] else NO_ROW
  }

  /**
   What a block brings: the portfolios as just valued, and the net funding of the services that have a FundingBalance.
   */
  datatype Inputs = Inputs(portfolios: map<Agent, Snapshot>, funding: map<Agent, real>)

  /** `last` is AgentPortfolio.lastSnapshotTimestamp; `log` lists the snapshots in the order they are made. */
  datatype State = State(registry: seq<Agent>, last: map<Agent, nat>, snapshots: map<(Agent, nat), Snapshot>,
                         log: seq<(Agent, nat)>, metrics: map<nat, Metric>)

  const EMPTY := State([], map[], map[], [], map[])

  // ----- the scheduler -----------------------------------------------------

  predicate Due(s: State, a: Agent, time: nat) {
    a in s.last && (s.last[a] == 0 || DayOf(time) > DayOf(s.last[a]))
  }

  function TakeSnapshot(s: State, a: Agent, time: nat, snap: Snapshot): State {
    s.(last := s.last[a := time], snapshots := s.snapshots[(a, time) := snap], log := s.log + [(a, time)])
  }

  function PortfolioOf(inputs: Inputs, a: Agent): Snapshot {
    if a in inputs.portfolios then inputs.portfolios[a] else NO_VALUES
  }

  /** The service loop of `checkServicesForSnapshot` over the first `n` registered services. */
  function Sweep(s: State, n: nat, time: nat, inputs: Inputs): State
    requires n <= |s.registry|
  {
    if n == 0 then s
    else
      var s' := Sweep(s, n - 1, time, inputs);
      var a := s.registry[n - 1];
      if Due(s', a, time) then TakeSnapshot(s', a, time, PortfolioOf(inputs, a)) else s'
  }

  predicate SnapshotToday(s: State, a: Agent, time: nat) {
    a in s.last && s.last[a] > 0 && DayOf(s.last[a]) == DayOf(time) && (a, s.last[a]) in s.snapshots
  }

  /** `getAllAgentSnapshotsForDay`. */
  function TodaysSnapshots(s: State, n: nat, time: nat): seq<(Agent, Snapshot)>
    requires n <= |s.registry|
  {
    if n == 0 then []
    else
      var a := s.registry[n - 1];
      TodaysSnapshots(s, n - 1, time) + (if SnapshotToday(s, a, time) then [(a, s.snapshots[(a, s.last[a])])] else [])
  }

  // ----- what an agent contributes to a series -----------------------------

  /** `shouldExcludeFromProjectedROI`. */
  predicate Excluded(snap: Snapshot) {
    snap.initialValue < 1.0 && snap.finalValue == 0.0
  }

  predicate LifetimeActive(snap: Snapshot) {
    snap.positions > 2
  }

  function Unless(b: bool, value: real): Option<real> {
    if b then None else Some(value)
  }

  /** Some series leave agents out: unfunded ones, never funded and empty ones, and stagnant ones. */
  function Reading(series: Series, snap: Snapshot, funding: Option<real>): Option<real> {
    match series
    case Roi => Some(snap.roi)
    case Apr => Some(snap.apr)
    case EthRoi => Some(snap.ethRoi)
    case EthApr => Some(snap.ethApr)
    case UnrealisedPnL => Unless(Excluded(snap), snap.unrealisedPnL)
    case ProjectedUnrealisedPnL => Unless(Excluded(snap), snap.projectedUnrealisedPnL)
    case EthUnrealisedPnL => Unless(Excluded(snap), snap.ethUnrealisedPnL)
    case EthProjectedUnrealisedPnL => Unless(Excluded(snap), snap.ethProjectedUnrealisedPnL)
    case Aum => funding
    case ActiveUnrealisedPnL => Unless(!LifetimeActive(snap) || Excluded(snap), snap.unrealisedPnL)
    case ActiveProjectedUnrealisedPnL => Unless(!LifetimeActive(snap) || Excluded(snap), snap.projectedUnrealisedPnL)
    case ActiveEthUnrealisedPnL => Unless(!LifetimeActive(snap) || Excluded(snap), snap.ethUnrealisedPnL)
    case ActiveEthProjectedUnrealisedPnL =>
      Unless(!LifetimeActive(snap) || Excluded(snap), snap.ethProjectedUnrealisedPnL)
    case ActiveAum => if LifetimeActive(snap) then funding else None
  }

  function FundingOf(funding: map<Agent, real>, a: Agent): Option<real> {
    if a in funding then Some(funding[a]) else None
  }

  /** The values of a series, in snapshot order. */
  function Readings(series: Series, snaps: seq<(Agent, Snapshot)>, funding: map<Agent, real>): seq<real> {
    if snaps == [] then []
    else
      var last := snaps[|snaps| - 1];
      var r := Reading(series, last.1, FundingOf(funding, last.0));
      Readings(series, snaps[..|snaps| - 1], funding) + (if r.Some? then [r.value] else [])
  }

  function ActiveCount(snaps: seq<(Agent, Snapshot)>): nat {
    if snaps == [] then 0
        else ActiveCount(snaps[..|snaps| - 1]) + (if LifetimeActive(snaps[|snaps| - 1].1) then 1 else 0)
  }

  // ----- the population metric ---------------------------------------------

  function PreviousWindow(m: map<nat, Metric>, day: nat, series: Series): seq<real> {
    if day > 0 && day - 1 in m then At(m[day - 1].rows, series).window else []
  }

  /** One series of a new metric: the median of the day, appended to the window of the day before. */
  function NewRow(m: map<nat, Metric>, day: nat, series: Series, snaps: seq<(Agent, Snapshot)>, funding: map<Agent,
                  real>): Row {
    var median := Median(Readings(series, snaps, funding));
    var window := Slide(PreviousWindow(m, day, series), median);
    Row(median, window, Sma(window))
  }

  function RowMaker(m: map<nat, Metric>, day: nat, snaps: seq<(Agent, Snapshot)>, funding: map<Agent,
                    real>): Series -> Row {
    series => NewRow(m, day, series, snaps, funding)
  }

  function NewMetric(m: map<nat, Metric>, day: nat, snaps: seq<(Agent, Snapshot)>, funding: map<Agent, real>): Metric {
    Metric(Tabulate(ALL_SERIES, RowMaker(m, day, snaps, funding)), |snaps|, ActiveCount(snaps))
  }

  /** `calculateGlobalMetrics`: at most one metric per day. */
  function AddMetric(s: State, time: nat, funding: map<Agent, real>): State {
    var snaps, day := TodaysSnapshots(s, |s.registry|, time), DayOf(time);
    if snaps == [] || day in s.metrics then s
    else s.(metrics := s.metrics[day := NewMetric(s.metrics, day, snaps, funding)])
  }

  function HandleBlockState(s: State, time: nat, inputs: Inputs): State {
    var s' := Sweep(s, |s.registry|, time, inputs);
    if |s'.log| > |s.log| then AddMetric(s', time, inputs.funding) else s'
  }

  function EnsurePortfolio(s: State, a: Agent): State {
    if a in s.last then s else s.(last := s.last[a := 0])
  }

  /** A new service: its portfolio is ensured and it joins the registry once. */
  function Register(s: State, a: Agent): State {
    EnsurePortfolio(s, a).(registry := AddOnce(s.registry, a))
  }

  datatype Event =
    | PortfolioEnsured(a: Agent)
    | Registered(a: Agent)
    | Block(time: nat, inputs: Inputs)

  function Step(s: State, e: Event): State {
    match e
    case PortfolioEnsured(a) => EnsurePortfolio(s, a)
    case Registered(a) => Register(s, a)
    case Block(time, inputs) => HandleBlockState(s, time, inputs)
  }

  function Run(es: seq<Event>): State {
    if es == [] then EMPTY else Step(Run(es[..|es| - 1]), es[|es| - 1])
  }

  /** Block times are positive and never decrease. */
  ghost predicate InOrder(es: seq<Event>) {
    && (forall i :: 0 <= i < |es| && es[i].Block? ==> es[i].time > 0)
    && (forall i, j :: 0 <= i < j < |es| && es[i].Block? && es[j].Block? ==> es[i].time <= es[j].time)
  }

  /** The time of the latest block, 0 before the first. */
  function Now(es: seq<Event>): nat {
    if es == [] then 0 else if es[|es| - 1].Block? then es[|es| - 1].time else Now(es[..|es| - 1])
  }

  lemma {:induction false} NowBounds(es: seq<Event>, i: nat)
    requires InOrder(es) && i < |es| && es[i].Block?
    ensures 0 < es[i].time <= Now(es)
  {
    if i < |es| - 1 {
      NowBounds(es[..|es| - 1], i);
    }
  }

  lemma NowMonotone(es: seq<Event>)
    requires InOrder(es) && es != [] && es[|es| - 1].Block?
    ensures Now(es[..|es| - 1]) <= es[|es| - 1].time && es[|es| - 1].time > 0
  {
    var init := es[..|es| - 1];
    if Now(init) > 0 {
      var i := LatestBlock(init);
      assert es[i] == init[i];
    }
  }

  lemma {:induction false} LatestBlock(es: seq<Event>) returns (i: nat)
    requires Now(es) > 0
    ensures i < |es| && es[i].Block? && es[i].time == Now(es)
  {
    if es[|es| - 1].Block? {
      i := |es| - 1;
    } else {
      i := LatestBlock(es[..|es| - 1]);
    }
  }

  // ----- what holds between blocks -----------------------------------------

  ghost predicate OnePerDay(log: seq<(Agent, nat)>) {
    forall i, j :: 0 <= i < j < |log| && log[i].0 == log[j].0 ==> DayOf(log[i].1) != DayOf(log[j].1)
  }

  /** A logged snapshot is no later than the one its portfolio remembers. */
  ghost predicate LoggedBefore(s: State, entry: (Agent, nat)) {
    entry.0 in s.last && 0 < entry.1 <= s.last[entry.0]
  }

  /** Snapshots and tracking agree: a portfolio's last snapshot is its latest logged one, stored with its values. */
  ghost predicate Tracked(s: State, now: nat) {
    && NoDup(s.registry)
    && (forall a :: a in s.registry ==> a in s.last)
    && (forall a :: a in s.last ==> s.last[a] <= now)
    && (forall a :: a in s.last && s.last[a] > 0 ==> (a, s.last[a]) in s.snapshots && (a, s.last[a]) in s.log)
    && (forall i :: 0 <= i < |s.log| ==> LoggedBefore(s, s.log[i]))
    && OnePerDay(s.log)
  }

  lemma DayMonotone(x: nat, y: nat)
    requires x <= y
    ensures DayOf(x) <= DayOf(y)
  {
  }

  lemma TakeSnapshotTracks(s: State, a: Agent, time: nat, snap: Snapshot)
    requires Tracked(s, time) && time > 0 && Due(s, a, time)
    ensures Tracked(TakeSnapshot(s, a, time, snap), time)
  {
    var s' := TakeSnapshot(s, a, time, snap);
    var n := |s.log|;
    forall i | 0 <= i < n && s'.log[i].0 == a ensures DayOf(s'.log[i].1) != DayOf(time) {
      assert LoggedBefore(s, s.log[i]);
      DayMonotone(s.log[i].1, s.last[a]);
    }
    forall i | 0 <= i < |s'.log| ensures LoggedBefore(s', s'.log[i]) {
      if i < n {
        assert LoggedBefore(s, s.log[i]);
      }
    }
  }

  lemma StillToday(s: State, a: Agent, time: nat, snap: Snapshot, b: Agent)
    requires time > 0 && SnapshotToday(s, b, time)
    ensures SnapshotToday(TakeSnapshot(s, a, time, snap), b, time)
  {
  }

  lemma {:induction false} SweepFrame(s: State, n: nat, time: nat, inputs: Inputs)
    requires n <= |s.registry|
    ensures var s' := Sweep(s, n, time, inputs);
            s'.registry == s.registry && s'.metrics == s.metrics && s.log <= s'.log && s'.last.Keys == s.last.Keys
  {
    if n > 0 {
      SweepFrame(s, n - 1, time, inputs);
    }
  }

  lemma {:induction false} SweepTracks(s: State, n: nat, time: nat, inputs: Inputs)
    requires Tracked(s, time) && time > 0 && n <= |s.registry|
    ensures Tracked(Sweep(s, n, time, inputs), time)
  {
    if n > 0 {
      SweepTracks(s, n - 1, time, inputs);
      if Due(Sweep(s, n - 1, time, inputs), s.registry[n - 1], time) {
        TakeSnapshotTracks(Sweep(s, n - 1, time, inputs), s.registry[n - 1], time,
                           PortfolioOf(inputs, s.registry[n - 1]));
      }
    }
  }

  /** A portfolio that is not due has its snapshot of the day. */
  lemma NotDueIsToday(s: State, a: Agent, time: nat)
    requires Tracked(s, time) && a in s.last && !Due(s, a, time)
    ensures SnapshotToday(s, a, time)
  {
  }

  lemma {:induction false} SweepCovers(s: State, n: nat, time: nat, inputs: Inputs, i: nat)
    requires Tracked(s, time) && time > 0 && i < n <= |s.registry|
    ensures SnapshotToday(Sweep(s, n, time, inputs), s.registry[i], time)
  {
    var s1, a := Sweep(s, n - 1, time, inputs), s.registry[n - 1];
    if i < n - 1 {
      SweepCovers(s, n - 1, time, inputs, i);
      if Due(s1, a, time) {
        StillToday(s1, a, time, PortfolioOf(inputs, a), s.registry[i]);
      }
    } else if !Due(s1, a, time) {
      assert s.registry[n - 1] in s.registry;
      SweepTracks(s, n - 1, time, inputs);
      SweepFrame(s, n - 1, time, inputs);
      NotDueIsToday(s1, a, time);
    }
  }

  /** After the service loop every registered service has a snapshot of the day. */
  lemma SweepIsComplete(s: State, time: nat, inputs: Inputs)
    requires Tracked(s, time) && time > 0
    ensures Tracked(Sweep(s, |s.registry|, time, inputs), time)
    ensures forall i :: 0 <= i < |s.registry| ==> SnapshotToday(Sweep(s, |s.registry|, time, inputs), s.registry[i],
                                                                time)
  {
    SweepTracks(s, |s.registry|, time, inputs);
    forall i | 0 <= i < |s.registry| ensures SnapshotToday(Sweep(s, |s.registry|, time, inputs), s.registry[i], time) {
      SweepCovers(s, |s.registry|, time, inputs, i);
    }
  }

  lemma {:induction false} AllHaveValues(s: State, n: nat, time: nat)
    requires n <= |s.registry| && forall i :: 0 <= i < n ==> SnapshotToday(s, s.registry[i], time)
    ensures |TodaysSnapshots(s, n, time)| == n
  {
    if n > 0 {
      AllHaveValues(s, n - 1, time);
    }
  }

  /** Metrics are written after the loop and touch nothing the tracking speaks of. */
  lemma BlockFrame(s: State, time: nat, inputs: Inputs)
    ensures var s1, s' := Sweep(s, |s.registry|, time, inputs), HandleBlockState(s, time, inputs);
            s'.last == s1.last && s'.snapshots == s1.snapshots && s'.log == s1.log && s'.registry == s1.registry
  {
  }

  lemma BlockTracks(s: State, time: nat, inputs: Inputs)
    requires Tracked(s, time) && time > 0
    ensures var s' := HandleBlockState(s, time, inputs);
            && Tracked(s', time) && s'.registry == s.registry
            && forall a :: a in s.registry ==> SnapshotToday(s', a, time)
  {
    SweepFrame(s, |s.registry|, time, inputs);
    SweepIsComplete(s, time, inputs);
    BlockFrame(s, time, inputs);
  }

  lemma RegisterTracks(s: State, a: Agent, now: nat)
    requires Tracked(s, now)
    ensures Tracked(Register(s, a), now) && Tracked(EnsurePortfolio(s, a), now)
  {
    AddOnceAdds(s.registry, a);
  }

  lemma {:induction false} RunTracks(es: seq<Event>)
    requires InOrder(es)
    ensures Tracked(Run(es), Now(es))
  {
    if es != [] {
      var init, e := es[..|es| - 1], es[|es| - 1];
      RunTracks(init);
      match e
      case PortfolioEnsured(a) => RegisterTracks(Run(init), a, Now(init));
      case Registered(a) => RegisterTracks(Run(init), a, Now(init));
      case Block(time, inputs) =>
        NowMonotone(es);
        BlockTracks(Run(init), time, inputs);
    }
  }

  /** After every block each registered service has its last snapshot on the block's day. */
  lemma EveryServiceSnapshotToday(es: seq<Event>, a: Agent)
    requires InOrder(es) && es != [] && es[|es| - 1].Block? && a in Run(es).registry
    ensures a in Run(es).last && Run(es).last[a] > 0 && DayOf(Run(es).last[a]) == DayOf(es[|es| - 1].time)
  {
    var init := es[..|es| - 1];
    RunTracks(init);
    NowMonotone(es);
    BlockTracks(Run(init), es[|es| - 1].time, es[|es| - 1].inputs);
  }

  /** No service ever has two snapshots on one day. */
  lemma OneSnapshotPerDay(es: seq<Event>, i: nat, j: nat)
    requires InOrder(es) && i < j < |Run(es).log| && Run(es).log[i].0 == Run(es).log[j].0
    ensures DayOf(Run(es).log[i].1) != DayOf(Run(es).log[j].1)
  {
    RunTracks(es);
  }

  // ----- the metric of a day -----------------------------------------------

  /** The first `n` registered services with the portfolios a block brings. */
  function PortfoliosOf(registry: seq<Agent>, n: nat, inputs: Inputs): (r: seq<(Agent, Snapshot)>)
    requires n <= |registry|
    ensures |r| == n
  {
    if n == 0 then [] else PortfoliosOf(registry, n - 1,
                                        inputs) + [(registry[n - 1], PortfolioOf(inputs, registry[n - 1]))]
  }

  /** Who is registered at a block, with what portfolios and what funding. */
  datatype Census = Census(portfolios: seq<(Agent, Snapshot)>, funding: map<Agent, real>)

  /** The census a block takes: nobody's if no service is registered. */
  function CensusAt(registry: seq<Agent>, inputs: Inputs): Option<Census> {
    if registry == [] then None else Some(Census(PortfoliosOf(registry, |registry|, inputs), inputs.funding))
  }

  /**
   The census at the first block of a day that found any service, in registry order; None if no block of the day did.
   */
  function FirstCensus(es: seq<Event>, day: nat): Option<Census> {
    if es == [] then None
    else
      var init, e := es[..|es| - 1], es[|es| - 1];
      var earlier, registry := FirstCensus(init, day), Run(init).registry;
      if earlier.Some? then earlier
      else if e.Block? && DayOf(e.time) == day then CensusAt(registry, e.inputs)
      else None
  }

  lemma QuietSweep(s: State, n: nat, time: nat, inputs: Inputs)
    requires n <= |s.registry|
    ensures forall i :: 0 <= i < n && Due(s, s.registry[i],
                                          time) && (forall j :: 0 <= j < i ==> s.registry[j] != s.registry[i])
              ==> |Sweep(s, n, time, inputs).log| > |s.log|
    ensures |Sweep(s, n, time, inputs).log| >= |s.log|
    ensures |Sweep(s, n, time, inputs).log| == |s.log| ==> Sweep(s, n, time, inputs) == s
  {
    if n > 0 {
      QuietSweep(s, n - 1, time, inputs);
    }
  }

  /** `m'` adds one day's metric, made of the day's snapshots, series by series. */
  ghost predicate AddsMetric(m: map<nat, Metric>, m': map<nat, Metric>, day: nat, snaps: seq<(Agent, Snapshot)>,
                             funding: map<Agent, real>) {
    && day !in m && day in m' && m' == m[day := m'[day]]
    && m'[day].totalAgents == |snaps| && m'[day].activeAgents == ActiveCount(snaps)
    && forall series :: At(m'[day].rows, series) == NewRow(m, day, series, snaps, funding)
  }

  /** A new metric has a row for each series. */
  lemma NewMetricAt(m: map<nat, Metric>, day: nat, snaps: seq<(Agent, Snapshot)>, funding: map<Agent, real>,
                    series: Series)
    ensures At(NewMetric(m, day, snaps, funding).rows, series) == NewRow(m, day, series, snaps, funding)
  {
    EverySeries(series);
    TabulateAt(ALL_SERIES, RowMaker(m, day, snaps, funding), series);
  }

  lemma NewMetricAdds(m: map<nat, Metric>, day: nat, snaps: seq<(Agent, Snapshot)>, funding: map<Agent, real>)
    requires day !in m
    ensures AddsMetric(m, m[day := NewMetric(m, day, snaps, funding)], day, snaps, funding)
  {
    forall series ensures At(NewMetric(m, day, snaps, funding).rows, series) == NewRow(m, day, series, snaps, funding) {
      NewMetricAt(m, day, snaps, funding, series);
    }
  }

  /** The snapshots of the day as the metric finds them after the service loop. */
  function BlockSnapshots(s: State, time: nat, inputs: Inputs): seq<(Agent, Snapshot)> {
    var s1 := Sweep(s, |s.registry|, time, inputs);
    TodaysSnapshots(s1, |s1.registry|, time)
  }

  ghost predicate SomeoneDue(s: State, time: nat) {
    exists a :: a in s.registry && Due(s, a, time)
  }

  lemma QuietBlock(s: State, time: nat, inputs: Inputs)
    requires DayOf(time) in s.metrics || !SomeoneDue(s, time)
    requires Tracked(s, time) && time > 0
    ensures HandleBlockState(s, time, inputs).metrics == s.metrics
  {
    SweepFrame(s, |s.registry|, time, inputs);
    SweepIsComplete(s, time, inputs);
    if !SomeoneDue(s, time) {
      NobodyDue(s, |s.registry|, time, inputs);
    }
  }

  lemma SweepMakesSnapshot(s: State, time: nat, inputs: Inputs)
    requires Tracked(s, time) && SomeoneDue(s, time)
    ensures |Sweep(s, |s.registry|, time, inputs).log| > |s.log|
  {
    QuietSweep(s, |s.registry|, time, inputs);
    var a :| a in s.registry && Due(s, a, time);
    var i :| 0 <= i < |s.registry| && s.registry[i] == a;
    assert forall j :: 0 <= j < i ==> s.registry[j] != s.registry[i];
  }

  lemma MetricRecorded(s: State, time: nat, inputs: Inputs)
    requires Tracked(s, time) && time > 0 && DayOf(time) !in s.metrics && SomeoneDue(s, time)
    ensures |BlockSnapshots(s, time, inputs)| == |s.registry|
    ensures HandleBlockState(s, time, inputs).metrics
         == s.metrics[DayOf(time) := NewMetric(s.metrics, DayOf(time), BlockSnapshots(s, time, inputs), inputs.funding)]
  {
    SweepMakesSnapshot(s, time, inputs);
    SweepFrame(s, |s.registry|, time, inputs);
    SweepIsComplete(s, time, inputs);
    AllHaveValues(Sweep(s, |s.registry|, time, inputs), |s.registry|, time);
  }

  /** The first block of a day that finds a service due records the day, with everyone counted. */
  lemma MetricBlock(s: State, time: nat, inputs: Inputs)
    requires Tracked(s, time) && time > 0 && DayOf(time) !in s.metrics && SomeoneDue(s, time)
    ensures AddsMetric(s.metrics, HandleBlockState(s, time, inputs).metrics, DayOf(time),
                       BlockSnapshots(s, time, inputs), inputs.funding)
    ensures |BlockSnapshots(s, time, inputs)| == |s.registry|
  {
    MetricRecorded(s, time, inputs);
    NewMetricAdds(s.metrics, DayOf(time), BlockSnapshots(s, time, inputs), inputs.funding);
  }

  lemma {:induction false} NobodyDue(s: State, n: nat, time: nat, inputs: Inputs)
    requires n <= |s.registry| && forall a :: a in s.registry ==> !Due(s, a, time)
    ensures Sweep(s, n, time, inputs) == s
  {
    if n > 0 {
      NobodyDue(s, n - 1, time, inputs);
    }
  }

  /** Snapshots are only taken on days whose blocks found services. */
  lemma {:induction false} SnapshotDaysHaveServices(es: seq<Event>, a: Agent)
    requires InOrder(es) && a in Run(es).last && Run(es).last[a] > 0
    ensures FirstCensus(es, DayOf(Run(es).last[a])).Some?
  {
    var init, e := es[..|es| - 1], es[|es| - 1];
    var s := Run(init);
    if a in s.last && s.last[a] > 0 {
      SnapshotDaysHaveServices(init, a);
    }
    if e.Block? {
      SweepSource(s, |s.registry|, e.time, e.inputs, a);
    }
  }

  lemma {:induction false} SweepSource(s: State, n: nat, time: nat, inputs: Inputs, a: Agent)
    requires n <= |s.registry| && a in Sweep(s, n, time, inputs).last
    ensures a in s.last && (Sweep(s, n, time, inputs).last[a] == s.last[a]
        || (Sweep(s, n, time, inputs).last[a] == time && s.registry != []))
  {
    if n > 0 {
      SweepSource(s, n - 1, time, inputs, a);
    }
  }

  lemma {:induction false} SweepUntouched(s: State, n: nat, time: nat, inputs: Inputs, a: Agent)
    requires n <= |s.registry| && a !in s.registry[..n] && a in s.last
    ensures a in Sweep(s, n, time, inputs).last && Sweep(s, n, time, inputs).last[a] == s.last[a]
  {
    if n > 0 {
      assert s.registry[n - 1] in s.registry[..n];
      assert s.registry[..n - 1] <= s.registry[..n];
      SweepUntouched(s, n - 1, time, inputs, a);
    }
  }

  /** The service has just been snapshotted at the block, with its portfolio there. */
  predicate FreshAt(s: State, a: Agent, time: nat, inputs: Inputs) {
    a in s.last && s.last[a] == time && (a, time) in s.snapshots && s.snapshots[(a, time)] == PortfolioOf(inputs, a)
  }

  lemma {:induction false} SweepRefreshes(s: State, n: nat, time: nat, inputs: Inputs, i: nat)
    requires NoDup(s.registry) && i < n <= |s.registry|
    requires forall a :: a in s.registry ==> Due(s, a, time)
    ensures FreshAt(Sweep(s, n, time, inputs), s.registry[i], time, inputs)
  {
    var a := s.registry[n - 1];
    if i < n - 1 {
      SweepRefreshes(s, n - 1, time, inputs, i);
      assert s.registry[i] != a;
    } else {
      assert a in s.registry && Due(s, a, time);
      assert a !in s.registry[..n - 1];
      SweepUntouched(s, n - 1, time, inputs, a);
    }
  }

  lemma {:induction false} TodaysAreFresh(s: State, n: nat, time: nat, registry: seq<Agent>, inputs: Inputs)
    requires s.registry == registry && n <= |registry| && time > 0
    requires forall i :: 0 <= i < n ==> FreshAt(s, registry[i], time, inputs)
    ensures TodaysSnapshots(s, n, time) == PortfoliosOf(registry, n, inputs)
  {
    if n > 0 {
      TodaysAreFresh(s, n - 1, time, registry, inputs);
      assert FreshAt(s, registry[n - 1], time, inputs);
    }
  }

  /** When everyone is due, the block's snapshots are what all registered services are worth there. */
  lemma EveryoneSnapshotted(s: State, time: nat, inputs: Inputs)
    requires Tracked(s, time) && time > 0
    requires forall a :: a in s.registry ==> Due(s, a, time)
    ensures BlockSnapshots(s, time, inputs) == PortfoliosOf(s.registry, |s.registry|, inputs)
  {
    var s1 := Sweep(s, |s.registry|, time, inputs);
    SweepFrame(s, |s.registry|, time, inputs);
    forall i | 0 <= i < |s.registry| ensures FreshAt(s1, s.registry[i], time, inputs) {
      SweepRefreshes(s, |s.registry|, time, inputs, i);
    }
    TodaysAreFresh(s1, |s.registry|, time, s.registry, inputs);
  }

  /** What a day's metric says of the census at the first block that found services. */
  ghost predicate MetricOf(m: map<nat, Metric>, day: nat, series: Series, census: Option<Census>) {
    && (day in m <==> census.Some?)
    && (day in m ==>
          && m[day].totalAgents == |census.value.portfolios|
              && m[day].activeAgents == ActiveCount(census.value.portfolios)
          && At(m[day].rows, series).median == Median(Readings(series, census.value.portfolios, census.value.funding)))
  }

  /** The other days' metrics stay. */
  ghost predicate SameOtherDays(m: map<nat, Metric>, m': map<nat, Metric>, today: nat) {
    forall day :: day != today ==> (day in m' <==> day in m) && (day in m ==> m'[day] == m[day])
  }

  lemma NewDayMetric(s: State, time: nat, inputs: Inputs, series: Series)
    requires Tracked(s, time) && time > 0 && DayOf(time) !in s.metrics
    requires forall a :: a in s.registry ==> Due(s, a, time)
    ensures var m' := HandleBlockState(s, time, inputs).metrics;
            MetricOf(m', DayOf(time), series, CensusAt(s.registry, inputs)) && SameOtherDays(s.metrics, m', DayOf(time))
  {
    if s.registry == [] {
      QuietBlock(s, time, inputs);
    } else {
      assert s.registry[0] in s.registry;
      assert SomeoneDue(s, time);
      MetricBlock(s, time, inputs);
      EveryoneSnapshotted(s, time, inputs);
    }
  }

  /**
   A day has a metric exactly when one of its blocks found a registered service; each series has the median of the
   readings of all services registered at the first such block, as they are worth there, and all of them are counted.
   */
  lemma {:induction false} MetricPerDay(es: seq<Event>, day: nat, series: Series)
    requires InOrder(es)
    ensures MetricOf(Run(es).metrics, day, series, FirstCensus(es, day))
  {
    if es != [] {
      var init, e := es[..|es| - 1], es[|es| - 1];
      MetricPerDay(init, day, series);
      if e.Block? {
        RunTracks(init);
        NowMonotone(es);
        MetricPerDay(init, DayOf(e.time), series);
        if DayOf(e.time) in Run(init).metrics {
          QuietBlock(Run(init), e.time, e.inputs);
        } else {
          EveryoneDueOnNewDay(init, e.time);
          NewDayMetric(Run(init), e.time, e.inputs, series);
        }
      }
    }
  }

  /** On a day without a metric every registered service is due. */
  lemma EveryoneDueOnNewDay(es: seq<Event>, time: nat)
    requires InOrder(es) && Now(es) <= time && FirstCensus(es, DayOf(time)).None?
    ensures forall a :: a in Run(es).registry ==> Due(Run(es), a, time)
  {
    var s := Run(es);
    RunTracks(es);
    forall a | a in s.registry ensures Due(s, a, time) {
      assert a in s.last;
      if s.last[a] > 0 {
        SnapshotDaysHaveServices(es, a);
      }
    }
  }

  // ----- the seven-day window ----------------------------------------------

  /** The number of consecutive days with a metric ending at `day`. */
  function Streak(m: map<nat, Metric>, day: nat): nat {
    if day !in m then 0 else if day == 0 then 1 else 1 + Streak(m, day - 1)
  }

  /** The medians of the last `k` days ending at `day`, oldest first. */
  function RecentMedians(m: map<nat, Metric>, day: nat, k: nat, series: Series): seq<real>
    requires k <= Streak(m, day)
  {
    if k == 0 then []
    else (if day == 0 then [] else RecentMedians(m, day - 1, k - 1, series)) + [At(m[day].rows, series).median]
  }

  function Min(x: nat, y: nat): nat {
    if x <= y then x else y
  }

  ghost predicate WindowOk(m: map<nat, Metric>, day: nat, series: Series)
    requires day in m
  {
    var row := At(m[day].rows, series);
    && row.window == RecentMedians(m, day, Min(7, Streak(m, day)), series)
    && 1 <= |row.window| <= 7
    && row.sma == SumReals(row.window) / |row.window| as real
  }

  lemma {:induction false} RecentLength(m: map<nat, Metric>, day: nat, k: nat, series: Series)
    requires k <= Streak(m, day)
    ensures |RecentMedians(m, day, k, series)| == k
  {
    if k > 0 && day > 0 {
      RecentLength(m, day - 1, k - 1, series);
    }
  }

  lemma {:induction false} RecentDropsOldest(m: map<nat, Metric>, day: nat, k: nat, series: Series)
    requires 1 <= k <= Streak(m, day)
    ensures |RecentMedians(m, day, k, series)| == k
        && RecentMedians(m, day, k, series)[1..] == RecentMedians(m, day, k - 1, series)
  {
    RecentLength(m, day, k, series);
    if day > 0 && k > 1 {
      RecentDropsOldest(m, day - 1, k - 1, series);
    }
  }

  /** A metric of a later day changes neither the streak nor the medians of an earlier one. */
  lemma {:induction false} LaterMetricIrrelevant(m: map<nat, Metric>, later: nat, v: Metric, day: nat, k: nat,
                                                 series: Series)
    requires day < later && k <= Streak(m, day)
    ensures Streak(m[later := v], day) == Streak(m, day)
    ensures RecentMedians(m[later := v], day, k, series) == RecentMedians(m, day, k, series)
    decreases day
  {
    if day in m && day > 0 {
      LaterMetricIrrelevant(m, later, v, day - 1, if k > 0 then k - 1 else 0, series);
    }
  }

  /** A new day extends the streak and the medians of the day before. */
  lemma NewDayExtends(m: map<nat, Metric>, day: nat, v: Metric, k: nat, series: Series)
    requires day > 0 && k <= Streak(m, day - 1)
    ensures Streak(m[day := v], day) == 1 + Streak(m, day - 1)
    ensures RecentMedians(m[day := v], day, k + 1, series)
        == RecentMedians(m, day - 1, k, series) + [At(v.rows, series).median]
  {
    LaterMetricIrrelevant(m, day, v, day - 1, k, series);
  }

  lemma FirstDay(m: map<nat, Metric>, day: nat, v: Metric, series: Series)
    requires day > 0 ==> day - 1 !in m
    ensures Streak(m[day := v], day) == 1 && RecentMedians(m[day := v], day, 1, series) == [At(v.rows, series).median]
  {
    if day > 0 {
      NewDayExtends(m, day, v, 0, series);
    }
  }

  /** The slid window is the last min(7, streak) medians again. */
  lemma SlideKeepsRecent(m: map<nat, Metric>, day: nat, v: Metric, w: seq<real>, streak: nat, series: Series)
    requires day > 0 && streak == Streak(m, day - 1) && w == RecentMedians(m, day - 1, Min(7, streak), series)
    ensures Streak(m[day := v], day) == 1 + streak
    ensures Slide(w, At(v.rows, series).median) == RecentMedians(m[day := v], day, Min(7, 1 + streak), series)
  {
    RecentLength(m, day - 1, Min(7, streak), series);
    if streak >= 7 {
      RecentDropsOldest(m, day - 1, 7, series);
      NewDayExtends(m, day, v, 6, series);
      assert (w + [At(v.rows, series).median])[1..] == w[1..] + [At(v.rows, series).median];
    } else {
      NewDayExtends(m, day, v, streak, series);
    }
  }

  lemma NewWindowOk(m: map<nat, Metric>, day: nat, v: Metric, series: Series)
    requires day !in m && (day > 0 && day - 1 in m ==> WindowOk(m, day - 1, series))
    requires var row := At(v.rows, series);
             row.window == Slide(PreviousWindow(m, day, series), row.median) && row.sma == Sma(row.window)
    ensures WindowOk(m[day := v], day, series)
  {
    if day > 0 && day - 1 in m {
      SlideKeepsRecent(m, day, v, At(m[day - 1].rows, series).window, Streak(m, day - 1), series);
    } else {
      FirstDay(m, day, v, series);
    }
    RecentLength(m[day := v], day, Min(7, Streak(m[day := v], day)), series);
  }

  lemma WindowStep(m: map<nat, Metric>, m': map<nat, Metric>, today: nat, snaps: seq<(Agent, Snapshot)>,
                   funding: map<Agent, real>,
                   day: nat, series: Series)
    requires AddsMetric(m, m', today, snaps, funding) && day in m'
    requires day in m ==> day <= today && WindowOk(m, day, series)
    requires day == today > 0 && day - 1 in m ==> WindowOk(m, day - 1, series)
    ensures WindowOk(m', day, series) && day <= today
  {
    if day == today {
      NewWindowOk(m, today, m'[today], series);
    } else {
      LaterMetricIrrelevant(m, today, m'[today], day, Min(7, Streak(m, day)), series);
    }
  }

  ghost predicate WindowsOk(m: map<nat, Metric>, today: nat, series: Series) {
    forall day :: day in m ==> day <= today && WindowOk(m, day, series)
  }

  lemma BlockKeepsWindows(s: State, time: nat, inputs: Inputs, series: Series)
    requires Tracked(s, time) && time > 0 && WindowsOk(s.metrics, DayOf(time), series)
    ensures WindowsOk(HandleBlockState(s, time, inputs).metrics, DayOf(time), series)
  {
    if DayOf(time) !in s.metrics && SomeoneDue(s, time) {
      var m' := HandleBlockState(s, time, inputs).metrics;
      MetricBlock(s, time, inputs);
      forall day | day in m' ensures day <= DayOf(time) && WindowOk(m', day, series) {
        WindowStep(s.metrics, m', DayOf(time), BlockSnapshots(s, time, inputs), inputs.funding, day, series);
      }
    } else {
      QuietBlock(s, time, inputs);
    }
  }

  lemma {:induction false} RunWindows(es: seq<Event>, series: Series)
    requires InOrder(es)
    ensures WindowsOk(Run(es).metrics, DayOf(Now(es)), series)
  {
    if es != [] {
      var init, e := es[..|es| - 1], es[|es| - 1];
      RunWindows(init, series);
      if e.Block? {
        RunTracks(init);
        NowMonotone(es);
        DayMonotone(Now(init), e.time);
        BlockKeepsWindows(Run(init), e.time, e.inputs, series);
      }
    }
  }

  /**
   Every recorded day's window of every series holds, in order, the medians of the last min(7, streak) consecutive
   recorded days, and its average is their mean: the over-long branch of the average is never reached.
   */
  lemma WindowIsLastSevenDays(es: seq<Event>, day: nat, series: Series)
    requires InOrder(es) && day in Run(es).metrics
    ensures WindowOk(Run(es).metrics, day, series)
  {
    RunWindows(es, series);
  }

  // ----- the handlers ------------------------------------------------------

  class SnapshotStore {
    var registry: seq<Agent>
    var last: map<Agent, nat>
    var snapshots: map<(Agent, nat), Snapshot>
    var metrics: map<nat, Metric>
    ghost var log: seq<(Agent, nat)>

    ghost function Abs(): State
      reads this
    {
      State(registry, last, snapshots, log, metrics)
    }

    constructor ()
      ensures Abs() == EMPTY
    {
      registry, last, snapshots, metrics, log := [], map[], map[], map[], [];
    }

    method EnsureAgentPortfolio(a: Agent)
      modifies this
      ensures Abs() == EnsurePortfolio(old(Abs()), a)
    {
      if a !in last {
        last := last[a := 0];
      }
    }

    /** `registerServiceForSnapshots`, after the portfolio of the new service is ensured. */
    method RegisterService(a: Agent)
      modifies this
      ensures Abs() == Register(old(Abs()), a)
    {
      EnsureAgentPortfolio(a);
      var isRegistered := false;
      for i := 0 to |registry|
        invariant !isRegistered && a !in registry[..i] && Abs() == EnsurePortfolio(old(Abs()), a)
      {
        if registry[i] == a {
          isRegistered := true;
          assert a in registry;
          break;
        }
      }
      if !isRegistered {
        assert registry[..|registry|] == registry;
        registry := registry + [a];
      }
    }

    method IsSnapshotDue(a: Agent, time: nat) returns (due: bool)
      ensures due == Due(Abs(), a, time)
    {
      if a !in last {
        return false;
      }
      if last[a] == 0 {
        return true;
      }
      var currentDayTimestamp := DayStart(time);
      var lastSnapshotDayTimestamp := DayStart(last[a]);
      due := currentDayTimestamp > lastSnapshotDayTimestamp;
    }

    /** `checkServicesForSnapshot`. */
    method HandleBlock(time: nat, inputs: Inputs)
      modifies this
      ensures Abs() == HandleBlockState(old(Abs()), time, inputs)
    {
      var snapshotsCreated := false;
      for i := 0 to |registry|
        invariant registry == old(registry)
        invariant Abs() == Sweep(old(Abs()), i, time, inputs)
        invariant |log| >= |old(log)| && (snapshotsCreated <==> |log| > |old(log)|)
      {
        var due := IsSnapshotDue(registry[i], time);
        if due {
          snapshots := snapshots[(registry[i], time) := PortfolioOf(inputs, registry[i])];
          last := last[registry[i] := time];
          log := log + [(registry[i], time)];
          snapshotsCreated := true;
        }
      }
      if snapshotsCreated {
        CalculateGlobalMetrics(time, inputs.funding);
      }
    }

    method GetAllAgentSnapshotsForDay(time: nat) returns (found: seq<(Agent, Snapshot)>)
      ensures found == TodaysSnapshots(Abs(), |registry|, time)
    {
      found := [];
      for i := 0 to |registry|
        invariant found == TodaysSnapshots(Abs(), i, time)
      {
        var a := registry[i];
        if a in last && last[a] > 0 {
          if DayOf(last[a]) == DayOf(time) {
            if (a, last[a]) in snapshots {
              found := found + [(a, snapshots[(a, last[a])])];
            }
          }
        }
      }
    }

    /** The collecting loop of one series, its median, window and average. */
    method SeriesRow(series: Series, day: nat, snaps: seq<(Agent, Snapshot)>, funding: map<Agent,
                     real>) returns (row: Row)
      ensures row == RowMaker(metrics, day, snaps, funding)(series)
    {
      var values := CollectReadings(series, snaps, funding);
      var median := CalculateMedian(values);
      var historical := if day > 0 && day - 1 in metrics then At(metrics[day - 1].rows, series).window else [];
      var updated := UpdateHistoricalArray(historical, median);
      var sma := Calculate7DaysSMA(updated);
      row := Row(median, updated, sma);
    }

    /** The rows of the listed series, one after the other. */
    method PopulationRows(list: seq<Series>, day: nat, snaps: seq<(Agent, Snapshot)>, funding: map<Agent,
                          real>) returns (all: map<Series, Row>)
      ensures all == Tabulate(list, RowMaker(metrics, day, snaps, funding))
    {
      all := map[];
      ghost var f := RowMaker(metrics, day, snaps, funding);
      for i := 0 to |list|
        invariant all == Tabulate(list[..i], f)
      {
        var row := SeriesRow(list[i], day, snaps, funding);
        TabulateNext(list, f, i);
        all := all[list[i] := row];
      }
      assert list[..|list|] == list;
    }

    method CalculateGlobalMetrics(time: nat, funding: map<Agent, real>)
      modifies this`metrics
      ensures Abs() == AddMetric(old(Abs()), time, funding)
    {
      var found := GetAllAgentSnapshotsForDay(time);
      if |found| == 0 {
        return;
      }
      var day := DayOf(time);
      var all := PopulationRows(ALL_SERIES, day, found, funding);
      var active := CountLifetimeActive(found);
      if day in metrics {
        return;
      }
      metrics := metrics[day := Metric(all, |found|, active)];
    }
  }

  /** The loops that push the readings of a series, with their exclusions. */
  method CollectReadings(series: Series, snaps: seq<(Agent, Snapshot)>, funding: map<Agent,
                         real>) returns (values: seq<real>)
    ensures values == Readings(series, snaps, funding)
  {
    values := [];
    for i := 0 to |snaps|
      invariant values == Readings(series, snaps[..i], funding)
    {
      assert snaps[..i + 1][..i] == snaps[..i];
      var reading := Reading(series, snaps[i].1, FundingOf(funding, snaps[i].0));
      if reading.Some? {
        values := values + [reading.value];
      }
    }
    assert snaps[..|snaps|] == snaps;
  }

  /** The length of what `getLifetimeActiveAgentSnapshots` returns. */
  method CountLifetimeActive(snaps: seq<(Agent, Snapshot)>) returns (count: nat)
    ensures count == ActiveCount(snaps)
  {
    count := 0;
    for i := 0 to |snaps|
      invariant count == ActiveCount(snaps[..i])
    {
      assert snaps[..i + 1][..i] == snaps[..i];
      if LifetimeActive(snaps[i].1) {
        count := count + 1;
      }
    }
    assert snaps[..|snaps|] == snaps;
  }
}
