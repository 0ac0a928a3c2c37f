/** Who is counted in a day's metric, with which value in which series, and what a snapshot stores. */
module SnapshotSeries {
  import opened Collections
  import opened Medians
  import opened Snapshots

  type Entry = (Agent, Snapshot)

  // ----- the series --------------------------------------------------------

  /** The entries that satisfy a condition, in their order. */
  function Kept(entries: seq<Entry>, p: Entry -> bool): seq<Entry> {
    if entries == [] then []
    else Kept(entries[..|entries| - 1], p) + (if p(entries[|entries| - 1]) then [entries[|entries| - 1]] else [])
  }

  /** One figure of every entry, in order. */
  function Column(entries: seq<Entry>, figure: Entry -> real): seq<real> {
    if entries == [] then [] else Column(entries[..|entries| - 1], figure) + [figure(entries[|entries| - 1])]
  }

  /** Funded with a dollar or more, or worth something. */
  predicate NotEmpty(e: Entry) {
    e.1.initialValue >= 1.0 || e.1.finalValue != 0.0
  }

  /** More than two positions, open and closed. */
  predicate Active(e: Entry) {
    e.1.positions > 2
  }

  predicate ActiveNotEmpty(e: Entry) {
    e.1.positions > 2 && (e.1.initialValue >= 1.0 || e.1.finalValue != 0.0)
  }

  function Funded(funding: map<Agent, real>): Entry -> bool {
    (e: Entry) => e.0 in funding
  }

  function ActiveFunded(funding: map<Agent, real>): Entry -> bool {
    (e: Entry) => e.0 in funding && e.1.positions > 2
  }

  function NetFunding(funding: map<Agent, real>): Entry -> real {
    (e: Entry) => if e.0 in funding then funding[e.0] else 0.0
  }

  /** The values of a series: which agents count, and which of their figures. */
  function Values(series: Series, all: seq<Entry>, funding: map<Agent, real>): seq<real> {
    match series
    case Roi => Column(all, (e: Entry) => e.1.roi)
    case Apr => Column(all, (e: Entry) => e.1.apr)
    case EthRoi => Column(all, (e: Entry) => e.1.ethRoi)
    case EthApr => Column(all, (e: Entry) => e.1.ethApr)
    case UnrealisedPnL => Column(Kept(all, NotEmpty), (e: Entry) => e.1.unrealisedPnL)
    case ProjectedUnrealisedPnL => Column(Kept(all, NotEmpty), (e: Entry) => e.1.projectedUnrealisedPnL)
    case EthUnrealisedPnL => Column(Kept(all, NotEmpty), (e: Entry) => e.1.ethUnrealisedPnL)
    case EthProjectedUnrealisedPnL => Column(Kept(all, NotEmpty), (e: Entry) => e.1.ethProjectedUnrealisedPnL)
    case Aum => Column(Kept(all, Funded(funding)), NetFunding(funding))
    case ActiveUnrealisedPnL => Column(Kept(all, ActiveNotEmpty), (e: Entry) => e.1.unrealisedPnL)
    case ActiveProjectedUnrealisedPnL => Column(Kept(all, ActiveNotEmpty), (e: Entry) => e.1.projectedUnrealisedPnL)
    case ActiveEthUnrealisedPnL => Column(Kept(all, ActiveNotEmpty), (e: Entry) => e.1.ethUnrealisedPnL)
    case ActiveEthProjectedUnrealisedPnL =>
      Column(Kept(all, ActiveNotEmpty), (e: Entry) => e.1.ethProjectedUnrealisedPnL)
    case ActiveAum => Column(Kept(all, ActiveFunded(funding)), NetFunding(funding))
  }

  /** A series whose readings are one figure of the entries that satisfy a condition. */
  ghost predicate ReadsAs(series: Series, funding: map<Agent, real>, p: Entry -> bool, figure: Entry -> real) {
    forall e: Entry :: Reading(series, e.1, FundingOf(funding, e.0)) == if p(e) then Some(figure(e)) else None
  }

  lemma ColumnAppend(entries: seq<Entry>, e: Entry, figure: Entry -> real)
    ensures Column(entries + [e], figure) == Column(entries, figure) + [figure(e)]
  {
    assert (entries + [e])[..|entries|] == entries;
  }

  lemma {:induction false} ReadingsAre(series: Series, all: seq<Entry>, funding: map<Agent, real>, p: Entry -> bool,
                                       figure: Entry -> real)
    requires ReadsAs(series, funding, p, figure)
    ensures Readings(series, all, funding) == Column(Kept(all, p), figure)
  {
    if all != [] {
      var init, e := all[..|all| - 1], all[|all| - 1];
      ReadingsAre(series, init, funding, p, figure);
      if p(e) {
        ColumnAppend(Kept(init, p), e, figure);
      } else {
        assert Kept(all, p) == Kept(init, p);
      }
    }
  }

  lemma {:induction false} KeptAll(all: seq<Entry>, p: Entry -> bool)
    requires forall e: Entry :: p(e)
    ensures Kept(all, p) == all
  {
    if all != [] {
      KeptAll(all[..|all| - 1], p);
    }
  }

  function Everyone(): Entry -> bool {
    (e: Entry) => true
  }

  lemma EveryonesValues(series: Series, all: seq<Entry>, funding: map<Agent, real>)
    requires series in {Roi, Apr, EthRoi, EthApr}
    ensures Readings(series, all, funding) == Values(series, all, funding)
  {
    KeptAll(all, Everyone());
    match series
    case Roi => ReadingsAre(series, all, funding, Everyone(), (e: Entry) => e.1.roi);
    case Apr => ReadingsAre(series, all, funding, Everyone(), (e: Entry) => e.1.apr);
    case EthRoi => ReadingsAre(series, all, funding, Everyone(), (e: Entry) => e.1.ethRoi);
    case EthApr => ReadingsAre(series, all, funding, Everyone(), (e: Entry) => e.1.ethApr);
  }

  lemma PnLValues(series: Series, all: seq<Entry>, funding: map<Agent, real>)
    requires series in {UnrealisedPnL, ProjectedUnrealisedPnL, EthUnrealisedPnL, EthProjectedUnrealisedPnL}
    ensures Readings(series, all, funding) == Values(series, all, funding)
  {
    match series
    case UnrealisedPnL => ReadingsAre(series, all, funding, NotEmpty, (e: Entry) => e.1.unrealisedPnL);
    case ProjectedUnrealisedPnL =>
      ReadingsAre(series, all, funding, NotEmpty, (e: Entry) => e.1.projectedUnrealisedPnL);
    case EthUnrealisedPnL => ReadingsAre(series, all, funding, NotEmpty, (e: Entry) => e.1.ethUnrealisedPnL);
    case EthProjectedUnrealisedPnL =>
      ReadingsAre(series, all, funding, NotEmpty, (e: Entry) => e.1.ethProjectedUnrealisedPnL);
  }

  lemma ActivePnLValues(series: Series, all: seq<Entry>, funding: map<Agent, real>)
    requires series in {ActiveUnrealisedPnL, ActiveProjectedUnrealisedPnL, ActiveEthUnrealisedPnL,
                        ActiveEthProjectedUnrealisedPnL}
    ensures Readings(series, all, funding) == Values(series, all, funding)
  {
    match series
    case ActiveUnrealisedPnL => ReadingsAre(series, all, funding, ActiveNotEmpty, (e: Entry) => e.1.unrealisedPnL);
    case ActiveProjectedUnrealisedPnL =>
      ReadingsAre(series, all, funding, ActiveNotEmpty, (e: Entry) => e.1.projectedUnrealisedPnL);
    case ActiveEthUnrealisedPnL =>
      ReadingsAre(series, all, funding, ActiveNotEmpty, (e: Entry) => e.1.ethUnrealisedPnL);
    case ActiveEthProjectedUnrealisedPnL =>
      ReadingsAre(series, all, funding, ActiveNotEmpty, (e: Entry) => e.1.ethProjectedUnrealisedPnL);
  }

  /** Each series collects one figure of the agents that count in it, in snapshot order. */
  lemma ReadingsAreValues(series: Series, all: seq<Entry>, funding: map<Agent, real>)
    ensures Readings(series, all, funding) == Values(series, all, funding)
  {
    match series
    case Roi => EveryonesValues(series, all, funding);
    case Apr => EveryonesValues(series, all, funding);
    case EthRoi => EveryonesValues(series, all, funding);
    case EthApr => EveryonesValues(series, all, funding);
    case Aum => ReadingsAre(series, all, funding, Funded(funding), NetFunding(funding));
    case ActiveAum => ReadingsAre(series, all, funding, ActiveFunded(funding), NetFunding(funding));
    case UnrealisedPnL => PnLValues(series, all, funding);
    case ProjectedUnrealisedPnL => PnLValues(series, all, funding);
    case EthUnrealisedPnL => PnLValues(series, all, funding);
    case EthProjectedUnrealisedPnL => PnLValues(series, all, funding);
    case ActiveUnrealisedPnL => ActivePnLValues(series, all, funding);
    case ActiveProjectedUnrealisedPnL => ActivePnLValues(series, all, funding);
    case ActiveEthUnrealisedPnL => ActivePnLValues(series, all, funding);
    case ActiveEthProjectedUnrealisedPnL => ActivePnLValues(series, all, funding);
  }

  lemma {:induction false} ActiveCountIs(all: seq<Entry>)
    ensures ActiveCount(all) == |Kept(all, Active)|
  {
    if all != [] {
      ActiveCountIs(all[..|all| - 1]);
    }
  }

  // ----- the census --------------------------------------------------------

  /** What a service is worth at a block; one that could not be valued is worth nothing. */
  function Worth(inputs: Inputs, a: Agent): Snapshot {
    if a in inputs.portfolios then inputs.portfolios[a]
    else Snapshot(0.0, 0.0, 0.0, 0.0, 0.0, 0.0, 0.0, 0.0, 0.0, 0.0, 0)
  }

  lemma {:induction false} PortfoliosAt(registry: seq<Agent>, n: nat, inputs: Inputs, i: nat)
    requires i < n <= |registry|
    ensures PortfoliosOf(registry, n, inputs)[i] == (registry[i], Worth(inputs, registry[i]))
  {
    if i < n - 1 {
      PortfoliosAt(registry, n - 1, inputs, i);
    }
  }

  lemma DayBounds(time: nat, day: nat)
    ensures DayOf(time) == day <==> 86400 * day <= time < 86400 * (day + 1)
  {
    assert 86400 * DayOf(time) <= time < 86400 * (DayOf(time) + 1);
  }

  /** The census was taken at block `k` of the day: everyone registered, at their worth there. */
  ghost predicate TakenAt(es: seq<Event>, k: nat, day: nat, c: Census)
    requires k < |es|
  {
    var registry := Run(es[..k]).registry;
    && es[k].Block? && 86400 * day <= es[k].time < 86400 * (day + 1) && registry != []
    && c.funding == es[k].inputs.funding && |c.portfolios| == |registry|
    && forall i :: 0 <= i < |registry| ==> c.portfolios[i] == (registry[i], Worth(es[k].inputs, registry[i]))
  }

  /** Block `k` of the day finds a registered service. */
  ghost predicate FindsService(es: seq<Event>, k: nat, day: nat)
    requires k < |es|
  {
    es[k].Block? && 86400 * day <= es[k].time < 86400 * (day + 1) && Run(es[..k]).registry != []
  }

  lemma FindsServicePrefix(es: seq<Event>, k: nat, day: nat)
    requires k < |es| - 1
    ensures FindsService(es, k, day) == FindsService(es[..|es| - 1], k, day)
  {
    assert es[..|es| - 1][..k] == es[..k];
  }

  /** The census of a day is taken at its first block that finds a registered service. */
  lemma {:induction false} CensusTaken(es: seq<Event>, day: nat) returns (k: nat)
    requires FirstCensus(es, day).Some?
    ensures k < |es| && TakenAt(es, k, day, FirstCensus(es, day).value)
    ensures FirstCensus(es[..k], day).None?
  {
    var n := |es| - 1;
    var init := es[..n];
    if FirstCensus(init, day).Some? {
      k := CensusTaken(init, day);
      assert init[..k] == es[..k];
    } else {
      k := n;
      var registry, inputs := Run(init).registry, es[n].inputs;
      DayBounds(es[n].time, day);
      forall i | 0 <= i < |registry|
        ensures PortfoliosOf(registry, |registry|, inputs)[i] == (registry[i], Worth(inputs, registry[i]))
      {
        PortfoliosAt(registry, |registry|, inputs, i);
      }
    }
  }

  lemma {:induction false} NoCensusNoService(es: seq<Event>, day: nat, k: nat)
    requires FirstCensus(es, day).None? && k < |es|
    ensures !FindsService(es, k, day)
    decreases |es|
  {
    var n := |es| - 1;
    if k < n {
      NoCensusNoService(es[..n], day, k);
      FindsServicePrefix(es, k, day);
    } else if es[n].Block? {
      DayBounds(es[n].time, day);
    }
  }

  /** A day is recorded exactly when one of its blocks found a registered service. */
  lemma DayRecordedIff(es: seq<Event>, day: nat)
    requires InOrder(es)
    ensures day in Run(es).metrics <==> exists k :: 0 <= k < |es| && FindsService(es, k, day)
  {
    MetricPerDay(es, day, Roi);
    if FirstCensus(es, day).Some? {
      var k := CensusTaken(es, day);
      assert FindsService(es, k, day);
    } else {
      forall k | 0 <= k < |es| ensures !FindsService(es, k, day) {
        NoCensusNoService(es, day, k);
      }
    }
  }

  /**
   A recorded day counts everyone registered at the first block of the day that found a service, as they are
   worth there, and the median of each series is the middle of its values in ascending order.
   */
  lemma MetricOfDay(es: seq<Event>, day: nat, series: Series) returns (k: nat, c: Census)
    requires InOrder(es) && day in Run(es).metrics
    ensures k < |es| && TakenAt(es, k, day, c) && forall j :: 0 <= j < k ==> !FindsService(es, j, day)
    ensures var m := Run(es).metrics[day];
            m.totalAgents == |c.portfolios| && m.activeAgents == |Kept(c.portfolios, Active)|
    ensures MiddleOf(Values(series, c.portfolios, c.funding), At(Run(es).metrics[day].rows, series).median)
  {
    MetricPerDay(es, day, series);
    k := CensusTaken(es, day);
    c := FirstCensus(es, day).value;
    forall j | 0 <= j < k ensures !FindsService(es, j, day) {
      NoCensusNoService(es[..k], day, j);
      assert es[..k][..j] == es[..j];
    }
    ActiveCountIs(c.portfolios);
    ReadingsAreValues(series, c.portfolios, c.funding);
    MedianIsMiddleOf(Values(series, c.portfolios, c.funding));
  }

  // ----- registration and snapshots ----------------------------------------

  ghost predicate Joined(es: seq<Event>, a: Agent) {
    exists i :: 0 <= i < |es| && es[i] == Registered(a)
  }

  lemma JoinedNext(es: seq<Event>, a: Agent)
    requires es != []
    ensures Joined(es, a) <==> Joined(es[..|es| - 1], a) || es[|es| - 1] == Registered(a)
  {
    assert forall i :: 0 <= i < |es| - 1 ==> es[..|es| - 1][i] == es[i];
  }

  lemma BlockKeepsRegistry(s: State, time: nat, inputs: Inputs)
    ensures HandleBlockState(s, time, inputs).registry == s.registry
  {
    SweepFrame(s, |s.registry|, time, inputs);
  }

  /** The registry lists exactly the registered services. */
  lemma {:induction false} RegistryIff(es: seq<Event>, a: Agent)
    ensures a in Run(es).registry <==> Joined(es, a)
  {
    if es != [] {
      var init, e := es[..|es| - 1], es[|es| - 1];
      RegistryIff(init, a);
      JoinedNext(es, a);
      if e.Block? {
        BlockKeepsRegistry(Run(init), e.time, e.inputs);
      }
    }
  }

  /** A stored snapshot holds what its service was worth at a block of its time that listed the service. */
  ghost predicate MadeAt(es: seq<Event>, k: nat, a: Agent, time: nat, snap: Snapshot)
    requires k < |es|
  {
    es[k].Block? && es[k].time == time && a in Run(es[..k]).registry && snap == Worth(es[k].inputs, a)
  }

  lemma {:induction false} SweepStores(s: State, n: nat, time: nat, inputs: Inputs, key: (Agent, nat))
    requires n <= |s.registry| && key in Sweep(s, n, time, inputs).snapshots
    ensures var snap := Sweep(s, n, time, inputs).snapshots[key];
            || (key in s.snapshots && snap == s.snapshots[key])
            || (key.1 == time && key.0 in s.registry && snap == Worth(inputs, key.0))
  {
    if n > 0 {
      if key in Sweep(s, n - 1, time, inputs).snapshots {
        SweepStores(s, n - 1, time, inputs, key);
      }
    }
  }

  lemma {:induction false} SnapshotMadeAt(es: seq<Event>, a: Agent, time: nat) returns (k: nat)
    requires (a, time) in Run(es).snapshots
    ensures k < |es| && MadeAt(es, k, a, time, Run(es).snapshots[(a, time)])
  {
    var n := |es| - 1;
    var init := es[..n];
    if es[n].Block? {
      BlockFrame(Run(init), es[n].time, es[n].inputs);
      SweepStores(Run(init), |Run(init).registry|, es[n].time, es[n].inputs, (a, time));
    }
    if es[n].Block? && es[n].time == time && a in Run(init).registry
        && Run(es).snapshots[(a, time)] == Worth(es[n].inputs, a) {
      k := n;
    } else {
      k := SnapshotMadeAt(init, a, time);
      assert init[..k] == es[..k];
    }
  }
}
