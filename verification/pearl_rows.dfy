/** The FundsMovement table: every row written once, once-only rows, and the groups that sum them. */
module PearlRows {
  import opened Collections
  import opened PearlIds
  import opened PearlState
  import opened PearlFrames
  import opened PearlInvariants

  // ----- every row is written once -----------------------------------------

  /** A log position is unique on chain. */
  ghost predicate DistinctLogs(es: Trace) {
    forall i, j :: 0 <= i < j < |es| ==> es[i].h.tx != es[j].h.tx || es[i].h.logIndex != es[j].h.logIndex
  }

  predicate KeyOfLog(k: RowKey, h: Header) {
    !k.SafeDeployedRow? && k.tx == h.tx && k.logIndex == h.logIndex
  }

  /** A row key comes from an event of the trace or names a known Master Safe. */
  ghost predicate KeyOrigin(s: State, es: Trace, k: RowKey) {
    if k.SafeDeployedRow? then k.safe in s.masters else exists i :: 0 <= i < |es| && KeyOfLog(k, es[i].h)
  }

  ghost predicate KeysDistinct(rows: seq<Row>) {
    forall i, j :: 0 <= i < j < |rows| ==> rows[i].key != rows[j].key
  }

  lemma NewRowKeys(cfg: Config, s: State, e: Event)
    requires WellFormed(e)
    ensures KeysDistinct(NewRows(cfg, s, e))
    ensures forall r :: r in NewRows(cfg, s, e) ==>
              if r.key.SafeDeployedRow? then IsDiscovery(e) && r == DeployedRow(r.key.safe)
                  && r.key.safe !in s.masters else KeyOfLog(r.key, e.h)
  {
  }

  lemma DeployedBecomesMaster(cfg: Config, s: State, e: Event, r: Row)
    requires WellFormed(e) && r in NewRows(cfg, s, e) && r.key.SafeDeployedRow?
    ensures r.key.safe in Step(cfg, s, e).masters
  {
    NewRowKeys(cfg, s, e);
    if e.Staked? {
      StakeFrame(s, e.sid, e.owner, e.multisig, e.probe);
    }
  }

  lemma {:induction false} RowKeys(cfg: Config, es: Trace)
    requires DistinctLogs(es)
    ensures KeysDistinct(Run(cfg, es).rows)
    ensures forall r :: r in Run(cfg, es).rows ==> KeyOrigin(Run(cfg, es), es, r.key)
  {
    if es != [] {
      var init, e := es[..|es| - 1], es[|es| - 1];
      var s := Run(cfg, init);
      RowKeys(cfg, init);
      StepAppendsRows(cfg, s, e);
      NewRowKeys(cfg, s, e);
      RunKeepsInv(cfg, init);
      StepKeepsInv(cfg, s, e);
      forall r | r in Run(cfg, es).rows ensures KeyOrigin(Run(cfg, es), es, r.key) {
        if r in s.rows {
          if !r.key.SafeDeployedRow? {
            var i :| 0 <= i < |init| && KeyOfLog(r.key, init[i].h);
            assert KeyOfLog(r.key, es[i].h);
          }
        } else if r.key.SafeDeployedRow? {
          DeployedBecomesMaster(cfg, s, e, r);
        } else {
          assert KeyOfLog(r.key, es[|es| - 1].h);
        }
      }
      forall r, r' | r in s.rows && r' in NewRows(cfg, s, e) ensures r.key != r'.key {
        if !r.key.SafeDeployedRow? && !r'.key.SafeDeployedRow? {
          var i :| 0 <= i < |init| && KeyOfLog(r.key, init[i].h);
          assert es[i] == init[i];
        }
      }
    }
  }

  /** No id of the immutable FundsMovement table is ever saved twice. */
  lemma RowsWrittenOnce(cfg: Config, es: Trace)
    requires DistinctLogs(es)
    ensures var rows := Run(cfg, es).rows;
            forall i, j :: 0 <= i < j < |rows| ==> RowId(rows[i].key) != RowId(rows[j].key)
  {
    RowKeys(cfg, es);
    var rows := Run(cfg, es).rows;
    forall i, j | 0 <= i < j < |rows| ensures RowId(rows[i].key) != RowId(rows[j].key) {
      RowIdInjective(rows[i].key, rows[j].key);
    }
  }

  // ----- rows that exist once per Master Safe ------------------------------

  function CountOf(rows: seq<Row>, category: Category, m: Address): nat {
    if rows == [] then 0
    else
      var last := rows[|rows| - 1];
      CountOf(rows[..|rows| - 1], category, m)
          + (if last.category == category && last.masterSafe == Some(m) then 1 else 0)
  }

  lemma {:induction false} CountAppend(r: seq<Row>, t: seq<Row>, category: Category, m: Address)
    ensures CountOf(r + t, category, m) == CountOf(r, category, m) + CountOf(t, category, m)
  {
    if t == [] {
      assert r + t == r;
    } else {
      CountAppend(r, t[..|t| - 1], category, m);
      assert (r + t)[..|r + t| - 1] == r + t[..|t| - 1];
    }
  }

  lemma {:induction false} CountNone(rows: seq<Row>, category: Category, m: Address)
    requires forall r :: r in rows ==> r.category != category
    ensures CountOf(rows, category, m) == 0
  {
    if rows != [] {
      CountNone(rows[..|rows| - 1], category, m);
    }
  }

  function Flag(b: bool): nat {
    if b then 1 else 0
  }

  predicate SetupSeen(s: State, m: Address) {
    m in s.masters && s.masters[m].setupSeen
  }

  ghost predicate OncePerMaster(s: State) {
    forall m :: CountOf(s.rows, SafeDeployed, m) == Flag(m in s.masters)
             && CountOf(s.rows, SafeSetupTransfer, m) == Flag(SetupSeen(s, m))
  }

  lemma CountOne(r: Row, category: Category, m: Address)
    ensures CountOf([r], category, m) == Flag(r.category == category && r.masterSafe == Some(m))
  {
    assert [r][..0] == [];
  }

  lemma DiscoverMasterCounts(s: State, a: Address, probe: Option<seq<Address>>, m: Address)
    ensures var s' := DiscoverMaster(s, a, probe);
            && CountOf(DeployedRows(s, a, probe), SafeDeployed, m) + Flag(m in s.masters) == Flag(m in s'.masters)
            && SetupSeen(s', m) == SetupSeen(s, m)
  {
    CountOne(DeployedRow(a), SafeDeployed, m);
  }

  lemma SaveMasterKeepsFlags(s: State, safe: Address, v: MasterSafe, m: Address)
    requires safe in s.masters && v.setupSeen == s.masters[safe].setupSeen
    ensures var s' := s.(masters := s.masters[safe := v]);
            (m in s'.masters <==> m in s.masters) && SetupSeen(s', m) == SetupSeen(s, m)
  {
  }

  lemma OwnersKeepFlags(s: State, safe: Address, owner: Address, m: Address)
    ensures Flag(m in AddOwner(s, safe, owner).masters) == Flag(m in s.masters)
        == Flag(m in RemoveOwner(s, safe, owner).masters)
    ensures SetupSeen(AddOwner(s, safe, owner), m) == SetupSeen(s, m) == SetupSeen(RemoveOwner(s, safe, owner), m)
  {
    if safe in s.masters {
      SaveMasterKeepsFlags(s, safe, s.masters[safe].(owners := AddOnce(s.masters[safe].owners, owner)), m);
      SaveMasterKeepsFlags(s, safe, RemoveOwner(s, safe, owner).masters[safe], m);
    }
  }

  lemma RegistrationKeepsMasters(s: State, sid: nat, operator: Address)
    ensures RegisterInstance(s, sid, operator).masters == s.masters
  {
    if sid in s.services {
      SaveServiceFrame(s, sid, s.services[sid].(operators := AddOnce(s.services[sid].operators, operator)));
    }
  }

  ghost predicate CountsMove(s: State, rows: seq<Row>, s': State, m: Address) {
    CountOf(rows, SafeDeployed, m) + Flag(m in s.masters) == Flag(m in s'.masters)
        && SetupSeen(s', m) == SetupSeen(s, m)
  }

  lemma LinkCounts(s: State, e: Event, m: Address)
    requires e.NftMoved? || e.Staked? || e.MultisigCreated?
    ensures CountsMove(s, DiscoveryRows(s, e), StepDiscovery(s, e), m)
  {
    if e.NftMoved? {
      DiscoverMasterCounts(s, e.recipient, e.probe, m);
      NftFrame(s, e.sid, e.recipient, e.probe);
    } else if e.Staked? {
      DiscoverMasterCounts(s, e.owner, e.probe, m);
      StakeFrame(s, e.sid, e.owner, e.multisig, e.probe);
    } else {
      MultisigFrame(s, e.sid, e.multisig);
    }
  }

  lemma DiscoveryCounts(s: State, e: Event, m: Address)
    requires IsDiscovery(e)
    ensures CountsMove(s, DiscoveryRows(s, e), StepDiscovery(s, e), m)
  {
    if e.NftMoved? || e.Staked? || e.MultisigCreated? {
      LinkCounts(s, e, m);
    } else if e.OwnerAdded? || e.OwnerRemoved? {
      OwnersKeepFlags(s, e.safe, e.owner, m);
    } else if e.InstanceRegistered? {
      RegistrationKeepsMasters(s, e.sid, e.operator);
    }
  }

  lemma TransferCounts(cfg: Config, s: State, h: Header, c: Classification, token: Option<Address>,
                       from: Address, to: Address, amount: nat, m: Address)
    requires Classify(cfg, s, from, to) == Some(c) && Linked(s)
    ensures var row := TransferRow(cfg, h, c, token, from, to, amount);
            var s' := Book(cfg, s, h, c, token, from, to, amount);
            CountOf([row], SafeDeployed, m) == 0
            && CountOf([row], SafeSetupTransfer, m) + Flag(SetupSeen(s, m)) == Flag(SetupSeen(s', m))
  {
    var row := TransferRow(cfg, h, c, token, from, to, amount);
    CountOne(row, SafeDeployed, m);
    CountOne(row, SafeSetupTransfer, m);
  }

  lemma OtherFundsCounts(cfg: Config, s: State, e: Event, m: Address)
    requires !IsDiscovery(e) && WellFormed(e) && !e.Erc20Transfer? && !e.NativeReceived?
    ensures CountOf(FundsRows(cfg, s, e), SafeDeployed, m) == 0
        && CountOf(FundsRows(cfg, s, e), SafeSetupTransfer, m) == 0
    ensures SetupSeen(StepFunds(cfg, s, e), m) == SetupSeen(s, m)
  {
    CountNone(FundsRows(cfg, s, e), SafeDeployed, m);
    CountNone(FundsRows(cfg, s, e), SafeSetupTransfer, m);
    if e.RewardClaimed? {
      ClaimFrame(cfg, s, e.h, e.proxy, e.sid, e.owner, e.multisig, e.reward);
    } else if e.Unstaked? {
      UnstakeFrame(cfg, s, e.h, e.proxy, e.sid, e.owner, e.multisig, e.reward);
    }
  }

  lemma FundsCounts(cfg: Config, s: State, e: Event, m: Address)
    requires !IsDiscovery(e) && WellFormed(e) && Linked(s)
    ensures CountOf(FundsRows(cfg, s, e), SafeDeployed, m) == 0
    ensures CountOf(FundsRows(cfg, s, e), SafeSetupTransfer, m) + Flag(SetupSeen(s, m))
        == Flag(SetupSeen(StepFunds(cfg, s, e), m))
  {
    if e.Erc20Transfer? {
      var c := Classify(cfg, s, e.from, e.to);
      if c.Some? {
        TransferCounts(cfg, s, e.h, c.value, Some(e.token), e.from, e.to, e.amount, m);
      }
    } else if e.NativeReceived? {
      var c := Classify(cfg, s, e.sender, e.safe);
      if c.Some? {
        TransferCounts(cfg, s, e.h, c.value, None, e.sender, e.safe, e.amount, m);
      }
    } else {
      OtherFundsCounts(cfg, s, e, m);
    }
  }

  /** Each Master Safe has exactly one SAFE_DEPLOYED row, and one SAFE_SETUP_TRANSFER row once its flag is set. */
  lemma {:induction false} RunOncePerMaster(cfg: Config, es: Trace)
    ensures OncePerMaster(Run(cfg, es))
  {
    if es != [] {
      var init, e := es[..|es| - 1], es[|es| - 1];
      var s := Run(cfg, init);
      RunOncePerMaster(cfg, init);
      RunKeepsInv(cfg, init);
      StepAppendsRows(cfg, s, e);
      forall m
        ensures CountOf(Run(cfg, es).rows, SafeDeployed, m) == Flag(m in Run(cfg, es).masters)
             && CountOf(Run(cfg, es).rows, SafeSetupTransfer, m) == Flag(SetupSeen(Run(cfg, es), m))
      {
        CountAppend(s.rows, NewRows(cfg, s, e), SafeDeployed, m);
        CountAppend(s.rows, NewRows(cfg, s, e), SafeSetupTransfer, m);
        if IsDiscovery(e) {
          CountNone(DiscoveryRows(s, e), SafeSetupTransfer, m);
          DiscoveryCounts(s, e, m);
        } else {
          FundsCounts(cfg, s, e, m);
          FundsFrame(cfg, s, e);
        }
      }
    }
  }

  // ----- AgentFundingEvent totals ------------------------------------------

  /** The amounts of the rows linked to a funding event, in one asset (None: native coin). */
  function LinkedSum(rows: seq<Row>, k: FundingKey, token: Option<Address>): int {
    if rows == [] then 0
    else
      var last := rows[|rows| - 1];
      LinkedSum(rows[..|rows| - 1], k, token)
          + (if last.funding == Some(k) && last.token == token then last.amount else 0)
  }

  lemma {:induction false} LinkedSumAppend(r: seq<Row>, t: seq<Row>, k: FundingKey, token: Option<Address>)
    ensures LinkedSum(r + t, k, token) == LinkedSum(r, k, token) + LinkedSum(t, k, token)
  {
    if t == [] {
      assert r + t == r;
    } else {
      LinkedSumAppend(r, t[..|t| - 1], k, token);
      assert (r + t)[..|r + t| - 1] == r + t[..|t| - 1];
    }
  }

  lemma {:induction false} LinkedSumNone(rows: seq<Row>, k: FundingKey, token: Option<Address>)
    requires forall r :: r in rows ==> r.funding != Some(k)
    ensures LinkedSum(rows, k, token) == 0
  {
    if rows != [] {
      LinkedSumNone(rows[..|rows| - 1], k, token);
    }
  }

  /** Group totals and group members agree, and exactly the MASTER_TO_AGENT rows are grouped. */
  ghost predicate FundingAgrees(cfg: Config, s: State) {
    && (forall k :: FundingOf(s.funding, k).olas == LinkedSum(s.rows, k, Some(cfg.olas))
                 && FundingOf(s.funding, k).native == LinkedSum(s.rows, k, None))
    && (forall r :: r in s.rows ==> (r.category == MasterToAgent <==> r.funding.Some?))
    && (forall r :: r in s.rows && r.funding.Some? ==>
          r.funding.value in s.funding && r.masterSafe == Some(r.funding.value.masterSafe)
              && r.service == Some(r.funding.value.service))
  }

  lemma TransferFunds(cfg: Config, s: State, h: Header, c: Classification, token: Option<Address>,
                      from: Address, to: Address, amount: nat, k: FundingKey)
    ensures var row := TransferRow(cfg, h, c, token, from, to, amount);
            var f, f' := FundingOf(s.funding, k), FundingOf(Book(cfg, s, h, c, token, from, to, amount).funding, k);
            f'.olas == f.olas + LinkedSum([row], k, Some(cfg.olas)) && f'.native == f.native + LinkedSum([row], k, None)
  {
    var row := TransferRow(cfg, h, c, token, from, to, amount);
    assert [row][..0] == [];
  }

  lemma OtherEventsKeepFunding(cfg: Config, s: State, e: Event)
    requires WellFormed(e) && !e.Erc20Transfer? && !e.NativeReceived?
    ensures Step(cfg, s, e).funding == s.funding
    ensures forall r :: r in NewRows(cfg, s, e) ==> r.funding.None?
  {
    if IsDiscovery(e) {
      DiscoveryFrame(s, e);
    } else if e.RewardClaimed? {
      ClaimFrame(cfg, s, e.h, e.proxy, e.sid, e.owner, e.multisig, e.reward);
    } else if e.Unstaked? {
      UnstakeFrame(cfg, s, e.h, e.proxy, e.sid, e.owner, e.multisig, e.reward);
    } else if e.Evicted? {
      EvictFrame(s, e.h, e.proxy, e.sids, e.owners, e.multisigs);
    }
  }

  lemma Erc20Funds(cfg: Config, s: State, h: Header, token: Address, from: Address, to: Address, amount: nat,
                   k: FundingKey)
    ensures var f, f' :=
      FundingOf(s.funding, k), FundingOf(TransferErc20(cfg, s, h, token, from, to, amount).funding, k);
            var rows := TransferRows(cfg, s, h, Some(token), from, to, amount);
            f'.olas == f.olas + LinkedSum(rows, k, Some(cfg.olas)) && f'.native == f.native + LinkedSum(rows, k, None)
  {
    var c := Classify(cfg, s, from, to);
    if c.Some? {
      TransferFunds(cfg, s, h, c.value, Some(token), from, to, amount, k);
    }
  }

  lemma NativeFunds(cfg: Config, s: State, h: Header, safe: Address, sender: Address, amount: nat, k: FundingKey)
    ensures var f, f' := FundingOf(s.funding, k), FundingOf(ReceiveNative(cfg, s, h, safe, sender, amount).funding, k);
            var rows := TransferRows(cfg, s, h, None, sender, safe, amount);
            f'.olas == f.olas + LinkedSum(rows, k, Some(cfg.olas)) && f'.native == f.native + LinkedSum(rows, k, None)
  {
    var c := Classify(cfg, s, sender, safe);
    if c.Some? {
      TransferFunds(cfg, s, h, c.value, None, sender, safe, amount, k);
    }
  }

  lemma StepFundsTotals(cfg: Config, s: State, e: Event, k: FundingKey)
    requires WellFormed(e)
    ensures var f, f' := FundingOf(s.funding, k), FundingOf(Step(cfg, s, e).funding, k);
            && f'.olas == f.olas + LinkedSum(NewRows(cfg, s, e), k, Some(cfg.olas))
            && f'.native == f.native + LinkedSum(NewRows(cfg, s, e), k, None)
  {
    if e.Erc20Transfer? {
      Erc20Funds(cfg, s, e.h, e.token, e.from, e.to, e.amount, k);
    } else if e.NativeReceived? {
      NativeFunds(cfg, s, e.h, e.safe, e.sender, e.amount, k);
    } else {
      OtherEventsKeepFunding(cfg, s, e);
      LinkedSumNone(NewRows(cfg, s, e), k, Some(cfg.olas));
      LinkedSumNone(NewRows(cfg, s, e), k, None);
    }
  }

  lemma NewRowGroups(cfg: Config, s: State, e: Event, r: Row)
    requires WellFormed(e) && Linked(s) && r in NewRows(cfg, s, e)
    ensures r.category == MasterToAgent <==> r.funding.Some?
    ensures r.funding.Some? ==>
              && r.funding.value in Step(cfg, s, e).funding
              && r.masterSafe == Some(r.funding.value.masterSafe) && r.service == Some(r.funding.value.service)
  {
  }

  lemma StepKeepsFundingKeys(cfg: Config, s: State, e: Event)
    requires WellFormed(e)
    ensures s.funding.Keys <= Step(cfg, s, e).funding.Keys
  {
    if !e.Erc20Transfer? && !e.NativeReceived? {
      OtherEventsKeepFunding(cfg, s, e);
    }
  }

  /** Each AgentFundingEvent's OLAS and native totals are the sums of its OLAS and native rows. */
  lemma {:induction false} RunFundingAgrees(cfg: Config, es: Trace)
    ensures FundingAgrees(cfg, Run(cfg, es))
  {
    if es != [] {
      var init, e := es[..|es| - 1], es[|es| - 1];
      var s, s' := Run(cfg, init), Run(cfg, es);
      RunFundingAgrees(cfg, init);
      RunKeepsInv(cfg, init);
      StepAppendsRows(cfg, s, e);
      StepKeepsFundingKeys(cfg, s, e);
      forall r | r in NewRows(cfg, s, e)
        ensures r.category == MasterToAgent <==> r.funding.Some?
        ensures r.funding.Some? ==> r.funding.value in s'.funding
        ensures r.funding.Some?
            ==> r.masterSafe == Some(r.funding.value.masterSafe) && r.service == Some(r.funding.value.service)
      {
        NewRowGroups(cfg, s, e, r);
      }
      forall k
        ensures FundingOf(s'.funding, k).olas == LinkedSum(s'.rows, k, Some(cfg.olas))
             && FundingOf(s'.funding, k).native == LinkedSum(s'.rows, k, None)
      {
        StepFundsTotals(cfg, s, e, k);
        LinkedSumAppend(s.rows, NewRows(cfg, s, e), k, Some(cfg.olas));
        LinkedSumAppend(s.rows, NewRows(cfg, s, e), k, None);
      }
    }
  }
}
