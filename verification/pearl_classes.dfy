/** Which row every event of a run writes, told by the roles and links its addresses and service have by then. */
module PearlClasses {
  import opened Collections
  import opened PearlIds
  import opened PearlState
  import opened PearlFrames
  import opened PearlInvariants
  import opened PearlRows

  // ----- transfers ---------------------------------------------------------

  predicate IsTransfer(e: Event) {
    e.Erc20Transfer? || e.NativeReceived?
  }

  /** None is the native coin. */
  function Asset(e: Event): Option<Address>
    requires IsTransfer(e)
  {
    if e.Erc20Transfer? then Some(e.token) else None
  }

  function Payer(e: Event): Address
    requires IsTransfer(e)
  {
    if e.Erc20Transfer? then e.from else e.sender
  }

  function Payee(e: Event): Address
    requires IsTransfer(e)
  {
    if e.Erc20Transfer? then e.to else e.safe
  }

  /** Transfers with no tracked or SRTU side, and the two legs between a Master Safe and SRTU. */
  predicate LeavesNoRow(cfg: Config, t: Roles, from: Address, to: Address) {
    || (from !in t && to !in t && cfg.srtu !in {from, to})
    || (Has(t, from, Master) && to == cfg.srtu)
    || (from == cfg.srtu && Has(t, to, Master))
  }

  /** A deposit to a Master Safe: neither from an Agent Safe nor registry dust. */
  predicate Deposits(cfg: Config, t: Roles, from: Address, to: Address) {
    Has(t, to, Master) && !Has(t, from, Agent) && from != cfg.registry
  }

  /** Neither side is a Master Safe or an Agent Safe. */
  predicate NoSafe(t: Roles, from: Address, to: Address) {
    !Has(t, from, Master) && !Has(t, from, Agent) && !Has(t, to, Master) && !Has(t, to, Agent)
  }

  /**
   The category of a transfer row, decided by the roles of the two sides: each category exactly for its
   own pairs. `first` says that the recipient has no setup row yet.
   */
  ghost predicate CategoryByRoles(cfg: Config, t: Roles, first: bool, r: Row) {
    var from, to := r.from, r.to;
    && (r.category == MasterToAgent <==> Has(t, from, Master) && (Has(t, to, Agent) || Has(t, to, AgentEoa)))
    && (r.category == AgentToMaster <==> Has(t, from, Agent) && Has(t, to, Master) && r.token != Some(cfg.olas))
    && (r.category == AgentOlasToMaster <==> Has(t, from, Agent) && Has(t, to, Master) && r.token == Some(cfg.olas))
    && (r.category == StakingRewardClaim <==> Has(t, from, Staking) && Has(t, to, Agent))
    && (r.category == SafeSetupTransfer <==> Deposits(cfg, t, from, to) && Has(t, from, MasterEoa) && first)
    && (r.category == MasterFundingIn <==> Deposits(cfg, t, from, to) && !(Has(t, from, MasterEoa) && first))
    && (r.category == MasterWithdrawal <==>
          Has(t, from, Master) && !Has(t, to, Master) && !Has(t, to, Agent) && !Has(t, to, AgentEoa))
    && (r.category == AgentToApp <==> Has(t, from, Agent) && !Has(t, to, Master))
    && (r.category == AppToAgent <==>
          Has(t, to, Agent) && !Has(t, from, Master) && !Has(t, from, Agent) && !Has(t, from, Staking))
    && (r.category == Other <==>
          || (Has(t, to, Master) && !Has(t, from, Agent) && from == cfg.registry)
          || NoSafe(t, from, to))
  }

  /** The links of a transfer row: those of the Agent Safe involved, else the Master Safe involved. */
  ghost predicate LinksByRoles(t: Roles, r: Row) {
    var from, to := r.from, r.to;
    match r.category
    case MasterToAgent =>
      && to in t && r.service == t[to].service && r.service.Some? && r.masterSafe == Some(from)
      && r.agentSafe == (if Has(t, to, Agent) then Some(to) else None)
      && r.key.EventRow? && r.funding == Some(FundingKey(r.key.tx, from, r.service.value))
    case AgentToMaster => from in t && (r.service, r.masterSafe, r.agentSafe, r.funding)
        == (t[from].service, Some(to), Some(from), None)
    case AgentOlasToMaster => from in t && (r.service, r.masterSafe, r.agentSafe, r.funding)
        == (t[from].service, Some(to), Some(from), None)
    case AgentToApp => from in t && (r.service, r.masterSafe, r.agentSafe, r.funding)
        == (t[from].service, t[from].masterSafe, Some(from), None)
    case StakingRewardClaim => to in t && (r.service, r.masterSafe, r.agentSafe, r.funding)
        == (t[to].service, t[to].masterSafe, Some(to), None)
    case AppToAgent => to in t && (r.service, r.masterSafe, r.agentSafe, r.funding)
        == (t[to].service, t[to].masterSafe, Some(to), None)
    case MasterWithdrawal => (r.service, r.masterSafe, r.agentSafe, r.funding) == (None, Some(from), None, None)
    case Other =>
      && r.service == None && r.agentSafe == None && r.funding == None
      && (Has(t, to, Master) ==> r.masterSafe == Some(to))
      && (!Has(t, to, Master) && from in t && t[from].masterSafe.Some? ==> r.masterSafe == t[from].masterSafe)
      && (!Has(t, to, Master) && !(from in t && t[from].masterSafe.Some?) ==>
            r.masterSafe == if to in t then t[to].masterSafe else None)
    case _ => (r.service, r.masterSafe, r.agentSafe, r.funding) == (None, Some(to), None, None)
  }

  ghost predicate RowOfTransfer(cfg: Config, s: State, e: Event, r: Row)
    requires IsTransfer(e)
  {
    && r.key == EventRow(e.h.tx, e.h.logIndex) && r.source == RawTransfer
    && r.token == Asset(e) && r.amount == e.amount && r.from == Payer(e) && r.to == Payee(e)
    && CategoryByRoles(cfg, s.tracked, CountOf(s.rows, SafeSetupTransfer, r.to) == 0, r)
    && LinksByRoles(s.tracked, r)
  }

  lemma ClassifiedOrSilent(cfg: Config, s: State, from: Address, to: Address)
    ensures Classify(cfg, s, from, to).None? <==> LeavesNoRow(cfg, s.tracked, from, to)
  {
  }

  lemma ClassifiedByRoles(cfg: Config, s: State, h: Header, token: Option<Address>, from: Address, to: Address,
                          amount: nat)
    requires Linked(s) && Classify(cfg, s, from, to).Some?
    requires Has(s.tracked, to, Master) ==> (CountOf(s.rows, SafeSetupTransfer, to) == 0 <==> !SetupSeen(s, to))
    ensures CategoryByRoles(cfg, s.tracked, CountOf(s.rows, SafeSetupTransfer, to) == 0,
                            TransferRow(cfg, h, Classify(cfg, s, from, to).value, token, from, to, amount))
  {
    assert from in s.tracked ==> LinkOk(s, from);
    assert to in s.tracked ==> LinkOk(s, to);
  }

  lemma ClassifiedLinks(cfg: Config, s: State, h: Header, token: Option<Address>, from: Address, to: Address,
                        amount: nat)
    requires Linked(s) && Classify(cfg, s, from, to).Some?
    ensures LinksByRoles(s.tracked, TransferRow(cfg, h, Classify(cfg, s, from, to).value, token, from, to, amount))
  {
    assert from in s.tracked ==> LinkOk(s, from);
    assert to in s.tracked ==> LinkOk(s, to);
  }

  lemma TransferStep(cfg: Config, s: State, e: Event)
    requires Inv(s) && OncePerMaster(s) && IsTransfer(e)
    ensures var rows := Step(cfg, s, e).rows;
            if LeavesNoRow(cfg, s.tracked, Payer(e), Payee(e)) then rows == s.rows
            else rows == s.rows + [rows[|rows| - 1]] && RowOfTransfer(cfg, s, e, rows[|rows| - 1])
  {
    StepAppendsRows(cfg, s, e);
    ClassifiedOrSilent(cfg, s, Payer(e), Payee(e));
    if Classify(cfg, s, Payer(e), Payee(e)).Some? {
      assert CountOf(s.rows, SafeSetupTransfer, Payee(e)) == Flag(SetupSeen(s, Payee(e)));
      ClassifiedByRoles(cfg, s, e.h, Asset(e), Payer(e), Payee(e), e.amount);
      ClassifiedLinks(cfg, s, e.h, Asset(e), Payer(e), Payee(e), e.amount);
    }
  }

  /**
   Every transfer of a run leaves no row exactly when both sides are unknown or it is an SRTU leg of a Master
   Safe; otherwise one row, with the category and links its two roles call for at that time.
   */
  lemma TransferRowByRoles(cfg: Config, es: Trace, k: nat)
    requires k < |es| && IsTransfer(es[k])
    ensures var s, rows := Run(cfg, es[..k]), Run(cfg, es[..k + 1]).rows;
            if LeavesNoRow(cfg, s.tracked, Payer(es[k]), Payee(es[k])) then rows == s.rows
            else |rows| == |s.rows| + 1 && rows[..|s.rows|] == s.rows && RowOfTransfer(cfg, s, es[k], rows[|s.rows|])
  {
    RunNext(cfg, es, k);
    RunKeepsInv(cfg, es[..k]);
    RunOncePerMaster(cfg, es[..k]);
    TransferStep(cfg, Run(cfg, es[..k]), es[k]);
  }

  // ----- staking rows ------------------------------------------------------

  /** The Master Safe and the Agent Safe a staking row names: the service's own, else those of the event. */
  function LinkOr(link: Option<Address>, other: Address): Address {
    if link.Some? then link.value else other
  }

  function MasterOf(s: State, sid: nat): Option<Address> {
    if sid in s.services then s.services[sid].masterSafe else None
  }

  function AgentOf(s: State, sid: nat): Option<Address> {
    if sid in s.services then s.services[sid].agentSafe else None
  }

  function ItemOr(list: seq<Address>, i: nat): Address {
    if i < |list| then list[i] else 0
  }

  /** A claim or an unstake writes one row: the reward in OLAS, from the proxy to the multisig. */
  lemma RewardRow(cfg: Config, es: Trace, k: nat)
    requires k < |es| && (es[k].RewardClaimed? || es[k].Unstaked?)
    ensures var s, e := Run(cfg, es[..k]), es[k];
            Run(cfg, es[..k + 1]).rows == s.rows
              + [Row(EventRow(e.h.tx, e.h.logIndex), if e.RewardClaimed? then StakingRewardClaim else UnstakeReward,
                     Semantic, Some(e.sid), Some(LinkOr(MasterOf(s, e.sid), e.owner)),
                     Some(LinkOr(AgentOf(s, e.sid), e.multisig)), Some(cfg.olas), e.reward, e.proxy, e.multisig, None)]
  {
    RunNext(cfg, es, k);
    StepAppendsRows(cfg, Run(cfg, es[..k]), es[k]);
  }

  /** An eviction writes one row of amount zero for every service id, in order, under its own slot id. */
  lemma EvictionRows(cfg: Config, es: Trace, k: nat)
    requires k < |es| && es[k].Evicted?
    ensures var s, e, rows := Run(cfg, es[..k]), es[k], Run(cfg, es[..k + 1]).rows;
            && |rows| == |s.rows| + |e.sids| && rows[..|s.rows|] == s.rows
            && forall i: I32 :: 0 <= i < |e.sids| ==>
                 rows[|s.rows| + i]
                 == Row(EvictedRow(e.h.tx, e.h.logIndex, i), ServiceEvicted, Semantic, Some(e.sids[i]),
                        Some(LinkOr(MasterOf(s, e.sids[i]), ItemOr(e.owners, i))),
                        Some(LinkOr(AgentOf(s, e.sids[i]), ItemOr(e.multisigs, i))), None, 0, e.proxy,
                        ItemOr(e.multisigs, i), None)
  {
    RunNext(cfg, es, k);
    StepAppendsRows(cfg, Run(cfg, es[..k]), es[k]);
  }

  // ----- the remaining events ----------------------------------------------

  /** `a` becomes a Master Safe, and the step writes its SAFE_DEPLOYED row and nothing else. */
  ghost predicate Deploys(s: State, s': State, a: Address) {
    && a !in s.masters && s'.masters.Keys == s.masters.Keys + {a}
    && s'.rows == s.rows + [Row(SafeDeployedRow(a), SafeDeployed, Semantic, None, Some(a), None, None, 0, 0, a, None)]
  }

  lemma DiscoverMasterDeploys(s: State, a: Address, probe: Option<seq<Address>>)
    ensures var s' := DiscoverMaster(s, a, probe);
            (s'.masters.Keys == s.masters.Keys && s'.rows == s.rows) || Deploys(s, s', a)
  {
    if a !in s.masters && IsSafe(probe) {
      assert DiscoverMaster(s, a, probe).masters.Keys == s.masters.Keys + {a};
    }
  }

  predicate BooksNothing(e: Event) {
    !IsTransfer(e) && !e.RewardClaimed? && !e.Unstaked? && !e.Evicted?
  }

  ghost predicate DeploysAtMostOne(s: State, s': State) {
    || (s'.masters.Keys == s.masters.Keys && s'.rows == s.rows)
    || exists a :: Deploys(s, s', a)
  }

  lemma SameDeploys(s: State, d: State, s': State, a: Address)
    requires (d.masters.Keys == s.masters.Keys && d.rows == s.rows) || Deploys(s, d, a)
    requires s'.masters.Keys == d.masters.Keys && s'.rows == d.rows
    ensures DeploysAtMostOne(s, s')
  {
    if Deploys(s, d, a) {
      assert Deploys(s, s', a);
    }
  }

  lemma StakeDeploys(s: State, e: Event)
    requires e.Staked?
    ensures DeploysAtMostOne(s, Stake(s, e.sid, e.owner, e.multisig, e.probe))
  {
    var d := DiscoverMaster(s, e.owner, e.probe);
    StakeFrame(s, e.sid, e.owner, e.multisig, e.probe);
    DiscoverMasterFrame(s, e.owner, e.probe);
    DiscoverMasterDeploys(s, e.owner, e.probe);
    SameDeploys(s, d, Stake(s, e.sid, e.owner, e.multisig, e.probe), e.owner);
  }

  lemma NftDeploys(s: State, e: Event)
    requires e.NftMoved?
    ensures DeploysAtMostOne(s, MoveNft(s, e.sid, e.recipient, e.probe))
  {
    var d, s' := DiscoverMaster(s, e.recipient, e.probe), MoveNft(s, e.sid, e.recipient, e.probe);
    NftFrame(s, e.sid, e.recipient, e.probe);
    if e.recipient != ZERO_ADDRESS && e.recipient !in s.staking {
      DiscoverMasterFrame(s, e.recipient, e.probe);
      DiscoverMasterDeploys(s, e.recipient, e.probe);
      SameDeploys(s, d, s', e.recipient);
    }
  }

  lemma DiscoveryDeploys(cfg: Config, s: State, e: Event)
    requires WellFormed(e) && BooksNothing(e)
    ensures DeploysAtMostOne(s, Step(cfg, s, e))
  {
    StepAppendsRows(cfg, s, e);
    if e.MultisigCreated? {
      MultisigFrame(s, e.sid, e.multisig);
    } else if e.Staked? {
      StakeDeploys(s, e);
    } else if e.NftMoved? {
      NftDeploys(s, e);
    } else if e.InstanceRegistered? {
      RegistrationKeepsMasters(s, e.sid, e.operator);
    } else if e.OwnerAdded? || e.OwnerRemoved? {
      OwnersFrame(s, e.safe, e.owner);
    }
  }

  /** A Master Safe gets its SAFE_DEPLOYED row with the event that stores it; discovery writes no other row. */
  lemma DeployedRowAt(cfg: Config, es: Trace, k: nat)
    requires k < |es| && !IsTransfer(es[k]) && !es[k].RewardClaimed? && !es[k].Unstaked? && !es[k].Evicted?
    ensures var s, s' := Run(cfg, es[..k]), Run(cfg, es[..k + 1]);
            || (s'.masters.Keys == s.masters.Keys && s'.rows == s.rows)
            || exists a :: Deploys(s, s', a)
  {
    RunNext(cfg, es, k);
    DiscoveryDeploys(cfg, Run(cfg, es[..k]), es[k]);
  }

  lemma {:induction false} RowsKept(cfg: Config, es: Trace, k: nat)
    requires k <= |es|
    ensures Run(cfg, es[..k]).rows <= Run(cfg, es).rows
    decreases |es|
  {
    if k == |es| {
      assert es[..k] == es;
    } else {
      var init := es[..|es| - 1];
      assert init[..k] == es[..k];
      RowsKept(cfg, init, k);
      StepAppendsRows(cfg, Run(cfg, init), es[|es| - 1]);
    }
  }

  /** The event that wrote a row: the rows before it and the row itself stand in the run as that event left them. */
  lemma {:induction false} RowWrittenAt(cfg: Config, es: Trace, i: nat) returns (k: nat)
    requires i < |Run(cfg, es).rows|
    ensures k < |es| && |Run(cfg, es[..k]).rows| <= i < |Run(cfg, es[..k + 1]).rows|
    ensures Run(cfg, es[..k + 1]).rows[i] == Run(cfg, es).rows[i]
    decreases |es|
  {
    var n := |es| - 1;
    var init := es[..n];
    assert es[..n + 1] == es;
    if i < |Run(cfg, init).rows| {
      k := RowWrittenAt(cfg, init, i);
      assert init[..k] == es[..k] && init[..k + 1] == es[..k + 1];
      StepAppendsRows(cfg, Run(cfg, init), es[n]);
    } else {
      k := n;
    }
  }

  /** Every raw row of a run was left by one of its transfers, with the category and links of its two roles. */
  lemma RawRowByRoles(cfg: Config, es: Trace, i: nat) returns (k: nat)
    requires i < |Run(cfg, es).rows| && Run(cfg, es).rows[i].source == RawTransfer
    ensures k < |es| && IsTransfer(es[k]) && i == |Run(cfg, es[..k]).rows|
    ensures RowOfTransfer(cfg, Run(cfg, es[..k]), es[k], Run(cfg, es).rows[i])
  {
    k := RowWrittenAt(cfg, es, i);
    if IsTransfer(es[k]) {
      TransferRowByRoles(cfg, es, k);
    } else {
      RunNext(cfg, es, k);
      StepAppendsRows(cfg, Run(cfg, es[..k]), es[k]);
    }
  }
}
