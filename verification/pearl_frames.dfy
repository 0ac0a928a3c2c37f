/** Which tables each kind of event leaves alone, and which rows it writes. */
module PearlFrames {
  import opened Collections
  import opened PearlIds
  import opened PearlState

  /** Balances, funding groups and daily totals are untouched. */
  ghost predicate SameLedger(s: State, s': State) {
    s'.balances == s.balances && s'.funding == s.funding && s'.daily == s.daily
  }

  /** Tracked addresses, Agent Safes and the set of Master Safes stay. */
  ghost predicate SameRoles(s: State, s': State) {
    s'.tracked == s.tracked && s'.agents == s.agents && s'.masters.Keys == s.masters.Keys
  }

  function DeployedRows(s: State, a: Address, probe: Option<seq<Address>>): seq<Row> {
    if a in s.masters || !IsSafe(probe) then [] else [DeployedRow(a)]
  }

  lemma DiscoverMasterFrame(s: State, a: Address, probe: Option<seq<Address>>)
    ensures SameLedger(s, DiscoverMaster(s, a, probe))
    ensures DiscoverMaster(s, a, probe).rows == s.rows + DeployedRows(s, a, probe)
  {
  }

  lemma DiscoverAgentFrame(s: State, a: Address, sid: nat, svc: Service)
    ensures SameLedger(s, DiscoverAgent(s, a, sid, svc))
    ensures DiscoverAgent(s, a, sid, svc).rows == s.rows && DiscoverAgent(s, a, sid, svc).masters == s.masters
  {
  }

  lemma MultisigFrame(s: State, sid: nat, multisig: Address)
    ensures SameLedger(s, CreateMultisig(s, sid, multisig))
    ensures CreateMultisig(s, sid, multisig).rows == s.rows
    ensures CreateMultisig(s, sid, multisig).masters == s.masters
  {
    var svc := ServiceOf(s, sid).(operators := Merge(ServiceOf(s, sid).operators, PendingOf(s, sid)));
    DiscoverAgentFrame(s, multisig, sid, svc);
  }

  lemma NftFrame(s: State, sid: nat, recipient: Address, probe: Option<seq<Address>>)
    ensures SameLedger(s, MoveNft(s, sid, recipient, probe))
    ensures MoveNft(s, sid, recipient, probe).rows
         == s.rows + (if recipient == ZERO_ADDRESS
             || recipient in s.staking then [] else DeployedRows(s, recipient, probe))
  {
    DiscoverMasterFrame(s, recipient, probe);
  }

  lemma StakeFrame(s: State, sid: nat, owner: Address, multisig: Address, probe: Option<seq<Address>>)
    ensures SameLedger(s, Stake(s, sid, owner, multisig, probe))
    ensures Stake(s, sid, owner, multisig, probe).rows == s.rows + DeployedRows(s, owner, probe)
    ensures Stake(s, sid, owner, multisig, probe).masters == DiscoverMaster(s, owner, probe).masters
  {
    DiscoverMasterFrame(s, owner, probe);
    var d := DiscoverMaster(s, owner, probe);
    DiscoverAgentFrame(d, multisig, sid,
                       if owner in d.masters then ServiceOf(s, sid).(masterSafe := Some(owner)) else ServiceOf(s, sid));
  }

  /** The rows a discovery event writes: at most the SAFE_DEPLOYED row of a new Master Safe. */
  function DiscoveryRows(s: State, e: Event): seq<Row>
    requires IsDiscovery(e)
  {
    if e.NftMoved? && e.recipient != ZERO_ADDRESS
        && e.recipient !in s.staking then DeployedRows(s, e.recipient, e.probe)
    else if e.Staked? then DeployedRows(s, e.owner, e.probe)
    else []
  }

  lemma SaveServiceFrame(s: State, sid: nat, svc: Service)
    ensures SameLedger(s, SaveService(s, sid, svc)) && SaveService(s, sid, svc).rows == s.rows
    ensures SameRoles(s, SaveService(s, sid, svc)) && SaveService(s, sid, svc).masters == s.masters
  {
  }

  lemma SavePendingFrame(s: State, sid: nat, operators: seq<Address>)
    ensures SameLedger(s, SavePending(s, sid, operators)) && SavePending(s, sid, operators).rows == s.rows
  {
  }

  lemma AddRewardFrame(s: State, sid: nat, amount: nat, time: nat)
    ensures var s' := AddReward(s, sid, amount, time);
            SameRoles(s, s') && s'.balances == s.balances && s'.funding == s.funding && s'.masters == s.masters
                && s'.rows == s.rows
  {
  }

  lemma RegisterInstanceFrame(s: State, sid: nat, operator: Address)
    ensures SameLedger(s, RegisterInstance(s, sid, operator)) && RegisterInstance(s, sid, operator).rows == s.rows
  {
    if sid in s.services {
      SaveServiceFrame(s, sid, s.services[sid].(operators := AddOnce(s.services[sid].operators, operator)));
    } else {
      SavePendingFrame(s, sid, AddOnce(PendingOf(s, sid), operator));
    }
  }

  lemma CreateProxyFrame(s: State, proxy: Address, accepted: bool)
    ensures SameLedger(s, CreateProxy(s, proxy, accepted)) && CreateProxy(s, proxy, accepted).rows == s.rows
  {
  }

  lemma OwnersFrame(s: State, safe: Address, owner: Address)
    ensures SameLedger(s, AddOwner(s, safe, owner)) && AddOwner(s, safe, owner).rows == s.rows
    ensures SameLedger(s, RemoveOwner(s, safe, owner)) && RemoveOwner(s, safe, owner).rows == s.rows
  {
  }

  lemma DiscoveryFrame(s: State, e: Event)
    requires IsDiscovery(e)
    ensures SameLedger(s, StepDiscovery(s, e))
    ensures StepDiscovery(s, e).rows == s.rows + DiscoveryRows(s, e)
  {
    if e.MultisigCreated? {
      MultisigFrame(s, e.sid, e.multisig);
    } else if e.NftMoved? {
      NftFrame(s, e.sid, e.recipient, e.probe);
    } else if e.Staked? {
      StakeFrame(s, e.sid, e.owner, e.multisig, e.probe);
    } else if e.InstanceRegistered? {
      RegisterInstanceFrame(s, e.sid, e.operator);
    } else if e.ProxyCreated? {
      CreateProxyFrame(s, e.proxy, e.accepted);
    } else if e.OwnerAdded? || e.OwnerRemoved? {
      OwnersFrame(s, e.safe, e.owner);
    }
  }

  // ----- events that book funds --------------------------------------------

  function TransferRows(cfg: Config, s: State, h: Header, token: Option<Address>, from: Address, to: Address,
                        amount: nat): seq<Row> {
    match Classify(cfg, s, from, to)
    case None => []
    case Some(c) => [TransferRow(cfg, h, c, token, from, to, amount)]
  }

  function EvictedRows(s: State, h: Header, proxy: Address, sids: seq<nat>, owners: seq<Address>,
                       multisigs: seq<Address>): seq<Row>
    requires Fits(|sids|)
  {
    seq(|sids|, i requires 0 <= i < |sids| => EvictedRowAt(s, h, proxy, sids, owners, multisigs, i))
  }

  function StakingRewardRow(cfg: Config, s: State, h: Header, category: Category, proxy: Address, sid: nat,
                            owner: Address,
                            multisig: Address, reward: nat): Row {
    StakingRow(EventRow(h.tx, h.logIndex), category, sid, ServiceOf(s, sid), owner, multisig, Some(cfg.olas), reward,
               proxy)
  }

  /** The rows a funds event writes. */
  function FundsRows(cfg: Config, s: State, e: Event): seq<Row>
    requires !IsDiscovery(e) && WellFormed(e)
  {
    match e
    case Erc20Transfer(h, token, from, to, amount) => TransferRows(cfg, s, h, Some(token), from, to, amount)
    case NativeReceived(h, safe, sender, amount) => TransferRows(cfg, s, h, None, sender, safe, amount)
    case BondDeposit(_, _, _, _) => []
    case BondRefund(_, _, _, _) => []
    case RewardClaimed(h, proxy, sid, owner, multisig, reward) =>
      [StakingRewardRow(cfg, s, h, StakingRewardClaim, proxy, sid, owner, multisig, reward)]
    case Unstaked(h, proxy, sid, owner, multisig, reward) =>
      [StakingRewardRow(cfg, s, h, UnstakeReward, proxy, sid, owner, multisig, reward)]
    case Evicted(h, proxy, sids, owners, multisigs) => EvictedRows(s, h, proxy, sids, owners, multisigs)
  }

  lemma BookFrame(cfg: Config, s: State, h: Header, c: Classification, token: Option<Address>, from: Address,
                  to: Address, amount: nat)
    ensures var s' := Book(cfg, s, h, c, token, from, to, amount);
            SameRoles(s, s') && s'.rows == s.rows + [TransferRow(cfg, h, c, token, from, to, amount)]
            && s'.daily == s.daily && s'.services == s.services && s'.balances == s.balances
  {
  }

  lemma TransferFrame(cfg: Config, s: State, h: Header, token: Address, from: Address, to: Address, amount: nat)
    ensures var s' := TransferErc20(cfg, s, h, token, from, to, amount);
            SameRoles(s, s') && s'.rows == s.rows + TransferRows(cfg, s, h, Some(token), from, to, amount)
            && s'.daily == s.daily && s'.services == s.services
  {
    var c := Classify(cfg, s, from, to);
    if c.Some? {
      BookFrame(cfg, s, h, c.value, Some(token), from, to, amount);
    }
  }

  lemma NativeFrame(cfg: Config, s: State, h: Header, safe: Address, sender: Address, amount: nat)
    ensures var s' := ReceiveNative(cfg, s, h, safe, sender, amount);
            SameRoles(s, s') && s'.rows == s.rows + TransferRows(cfg, s, h, None, sender, safe, amount)
            && s'.balances == s.balances && s'.daily == s.daily && s'.services == s.services
  {
    var c := Classify(cfg, s, sender, safe);
    if c.Some? {
      BookFrame(cfg, s, h, c.value, None, sender, safe, amount);
    }
  }

  lemma BondFrame(s: State, account: Address, token: Address, delta: int)
    ensures SameRoles(s, MoveBond(s, account, token, delta)) && MoveBond(s, account, token, delta).rows == s.rows
  {
  }

  lemma ClaimFrame(cfg: Config, s: State, h: Header, proxy: Address, sid: nat, owner: Address, multisig: Address,
                   reward: nat)
    ensures var s' := ClaimReward(cfg, s, h, proxy, sid, owner, multisig, reward);
            SameRoles(s, s') && s'.balances == s.balances && s'.funding == s.funding && s'.masters == s.masters
            && s'.rows == s.rows + [StakingRewardRow(cfg, s, h, StakingRewardClaim, proxy, sid, owner, multisig,
                                                     reward)]
  {
    AddRewardFrame(AppendRow(s, StakingRewardRow(cfg, s, h, StakingRewardClaim, proxy, sid, owner, multisig, reward)),
                   sid, reward, h.time);
  }

  lemma UnstakeFrame(cfg: Config, s: State, h: Header, proxy: Address, sid: nat, owner: Address, multisig: Address,
                     reward: nat)
    ensures var s' := Unstake(cfg, s, h, proxy, sid, owner, multisig, reward);
            SameRoles(s, s') && s'.balances == s.balances && s'.funding == s.funding && s'.masters == s.masters
            && s'.rows == s.rows + [StakingRewardRow(cfg, s, h, UnstakeReward, proxy, sid, owner, multisig, reward)]
  {
    var row := StakingRewardRow(cfg, s, h, UnstakeReward, proxy, sid, owner, multisig, reward);
    SaveServiceFrame(AppendRow(s, row), sid, ServiceOf(s, sid));
    AddRewardFrame(SaveService(AppendRow(s, row), sid, ServiceOf(s, sid)), sid, reward, h.time);
  }

  lemma EvictFrame(s: State, h: Header, proxy: Address, sids: seq<nat>, owners: seq<Address>, multisigs: seq<Address>)
    requires Fits(|sids|)
    ensures var s' := Evict(s, h, proxy, sids, owners, multisigs);
            SameRoles(s, s') && SameLedger(s, s') && s'.masters == s.masters
            && s'.rows == s.rows + EvictedRows(s, h, proxy, sids, owners, multisigs)
  {
  }

  lemma FundsFrame(cfg: Config, s: State, e: Event)
    requires !IsDiscovery(e) && WellFormed(e)
    ensures SameRoles(s, StepFunds(cfg, s, e))
    ensures StepFunds(cfg, s, e).rows == s.rows + FundsRows(cfg, s, e)
  {
    if e.Erc20Transfer? {
      TransferFrame(cfg, s, e.h, e.token, e.from, e.to, e.amount);
    } else if e.NativeReceived? {
      NativeFrame(cfg, s, e.h, e.safe, e.sender, e.amount);
    } else if e.BondDeposit? {
      BondFrame(s, e.account, e.token, 0 - e.amount);
    } else if e.BondRefund? {
      BondFrame(s, e.account, e.token, e.amount);
    } else if e.RewardClaimed? {
      ClaimFrame(cfg, s, e.h, e.proxy, e.sid, e.owner, e.multisig, e.reward);
    } else if e.Unstaked? {
      UnstakeFrame(cfg, s, e.h, e.proxy, e.sid, e.owner, e.multisig, e.reward);
    } else {
      EvictFrame(s, e.h, e.proxy, e.sids, e.owners, e.multisigs);
    }
  }

  function NewRows(cfg: Config, s: State, e: Event): seq<Row>
    requires WellFormed(e)
  {
    if IsDiscovery(e) then DiscoveryRows(s, e) else FundsRows(cfg, s, e)
  }

  /** Rows are only ever appended. */
  lemma StepAppendsRows(cfg: Config, s: State, e: Event)
    requires WellFormed(e)
    ensures Step(cfg, s, e).rows == s.rows + NewRows(cfg, s, e)
  {
    if IsDiscovery(e) {
      DiscoveryFrame(s, e);
    } else {
      FundsFrame(cfg, s, e);
    }
  }

  /** One more event of a run. */
  lemma RunNext(cfg: Config, es: Trace, k: nat)
    requires k < |es|
    ensures Run(cfg, es[..k + 1]) == Step(cfg, Run(cfg, es[..k]), es[k])
  {
    assert es[..k + 1][..k] == es[..k];
  }
}
