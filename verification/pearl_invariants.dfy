/** What every step of the Pearl handlers keeps. */
module PearlInvariants {
  import opened Collections
  import opened PearlIds
  import opened PearlState
  import opened PearlFrames

  /** A tracked address points at the entities its role stands for. */
  ghost predicate LinkOk(s: State, a: Address)
    requires a in s.tracked
  {
    var v := s.tracked[a];
    match v.role
    case Master => v.masterSafe == Some(a) && v.service.None? && a in s.masters
    case Agent =>
      && a in s.agents
      && v.masterSafe == s.agents[a].masterSafe && v.service == Some(s.agents[a].service)
      && v.masterSafe.Some? && v.masterSafe.value in s.masters
    case MasterEoa => v.masterSafe.Some? && v.masterSafe.value in s.masters && v.service.None?
    case AgentEoa => v.masterSafe.Some? && v.masterSafe.value in s.masters && v.service.Some?
    case Staking => v.masterSafe.None? && v.service.None? && a in s.staking
  }

  ghost predicate Linked(s: State) {
    && (forall a :: a in s.tracked ==> LinkOk(s, a))
    && (forall a :: a in s.masters ==> a in s.tracked)
    && (forall sid :: sid in s.services && s.services[sid].masterSafe.Some? ==>
          s.services[sid].masterSafe.value in s.masters)
  }

  /** The Safe template is created exactly once for every address seen as Master, Agent or both. */
  ghost predicate SpawnedOnce(s: State) {
    NoDup(s.spawned) && Elems(s.spawned) == s.masters.Keys + s.agents.Keys
  }

  /** Only Master Safes, Agent Safes and Agent EOAs ever get a balance. */
  ghost predicate BalancesTracked(s: State) {
    forall k :: k in s.balances ==>
      Has(s.tracked, k.0, Master) || Has(s.tracked, k.0, Agent) || Has(s.tracked, k.0, AgentEoa)
  }

  ghost predicate Inv(s: State) {
    Linked(s) && SpawnedOnce(s) && BalancesTracked(s)
  }

  /** Roles and links are write-once. */
  ghost predicate Extends(s: State, s': State) {
    && s.tracked.Keys <= s'.tracked.Keys
    && (forall a :: a in s.tracked ==> s'.tracked[a] == s.tracked[a])
    && s.masters.Keys <= s'.masters.Keys
    && s.agents.Keys <= s'.agents.Keys
    && (forall a :: a in s.agents ==> s'.agents[a] == s.agents[a])
    && s.staking <= s'.staking
  }

  lemma AppendFresh(s: seq<Address>, a: Address)
    requires NoDup(s) && a !in s
    ensures NoDup(s + [a]) && Elems(s + [a]) == Elems(s) + {a}
  {
  }

  /** A link survives any growth of the tables. */
  lemma LinkSurvives(s: State, s': State, a: Address)
    requires Extends(s, s') && a in s.tracked && LinkOk(s, a)
    ensures LinkOk(s', a)
  {
  }

  lemma LinksSurvive(s: State, s': State)
    requires Linked(s) && Extends(s, s')
    ensures forall a :: a in s.tracked ==> LinkOk(s', a)
  {
    forall a | a in s.tracked ensures LinkOk(s', a) {
      LinkSurvives(s, s', a);
    }
  }

  lemma BalancesSurvive(s: State, s': State)
    requires BalancesTracked(s) && Extends(s, s') && s'.balances == s.balances
    ensures BalancesTracked(s')
  {
  }

  lemma DiscoverMasterExtends(s: State, a: Address, probe: Option<seq<Address>>)
    ensures Extends(s, DiscoverMaster(s, a, probe))
  {
  }

  lemma DiscoverMasterSpawns(s: State, a: Address, probe: Option<seq<Address>>)
    requires SpawnedOnce(s)
    ensures SpawnedOnce(DiscoverMaster(s, a, probe))
  {
    var s' := DiscoverMaster(s, a, probe);
    if a !in s.masters && IsSafe(probe) {
      assert s'.masters.Keys == s.masters.Keys + {a};
      if a !in s.agents {
        assert a !in Elems(s.spawned);
        AppendFresh(s.spawned, a);
        assert s'.spawned == s.spawned + [a];
        assert Elems(s'.spawned) == s.masters.Keys + s.agents.Keys + {a};
      } else {
        assert s'.spawned == s.spawned;
        assert s.masters.Keys + {a} + s.agents.Keys == s.masters.Keys + s.agents.Keys;
      }
    }
  }

  lemma DiscoverMasterLinks(s: State, a: Address, probe: Option<seq<Address>>)
    requires Linked(s)
    ensures Linked(DiscoverMaster(s, a, probe))
  {
    var s' := DiscoverMaster(s, a, probe);
    DiscoverMasterExtends(s, a, probe);
    LinksSurvive(s, s');
    forall x | x in s'.tracked ensures LinkOk(s', x) {
    }
  }

  lemma DiscoverMasterKeepsInv(s: State, a: Address, probe: Option<seq<Address>>)
    requires Inv(s)
    ensures Inv(DiscoverMaster(s, a, probe)) && Extends(s, DiscoverMaster(s, a, probe))
  {
    DiscoverMasterExtends(s, a, probe);
    DiscoverMasterSpawns(s, a, probe);
    DiscoverMasterLinks(s, a, probe);
    BalancesSurvive(s, DiscoverMaster(s, a, probe));
  }

  lemma DiscoverAgentExtends(s: State, a: Address, sid: nat, svc: Service)
    ensures Extends(s, DiscoverAgent(s, a, sid, svc))
  {
  }

  lemma DiscoverAgentSpawns(s: State, a: Address, sid: nat, svc: Service)
    requires SpawnedOnce(s)
    ensures SpawnedOnce(DiscoverAgent(s, a, sid, svc))
  {
    if a !in s.agents && a !in s.masters {
      assert a !in Elems(s.spawned);
      AppendFresh(s.spawned, a);
    }
  }

  lemma TrackAgentAdds(t: map<Address, Tracked>, a: Address, sid: nat, svc: Service, x: Address)
    requires x in TrackAgent(t, a, sid, svc) && x !in t
    ensures svc.masterSafe.Some?
    ensures TrackAgent(t, a, sid, svc)[x] == Tracked(if x == a then Agent else AgentEoa, svc.masterSafe, Some(sid))
  {
  }

  lemma NewAgentLinkOk(s: State, a: Address, sid: nat, svc: Service, x: Address)
    requires svc.masterSafe.Some? ==> svc.masterSafe.value in s.masters
    requires x in DiscoverAgent(s, a, sid, svc).tracked && x !in s.tracked
    ensures LinkOk(DiscoverAgent(s, a, sid, svc), x)
  {
    TrackAgentAdds(s.tracked, a, sid, svc, x);
  }

  lemma DiscoverAgentLinks(s: State, a: Address, sid: nat, svc: Service)
    requires Linked(s)
    requires svc.masterSafe.Some? ==> svc.masterSafe.value in s.masters
    ensures Linked(DiscoverAgent(s, a, sid, svc))
  {
    var s' := DiscoverAgent(s, a, sid, svc);
    DiscoverAgentExtends(s, a, sid, svc);
    LinksSurvive(s, s');
    assert s'.masters == s.masters && s'.services == s.services;
    forall x | x in s'.tracked && x !in s.tracked ensures LinkOk(s', x) {
      NewAgentLinkOk(s, a, sid, svc, x);
    }
  }

  lemma DiscoverAgentKeepsInv(s: State, a: Address, sid: nat, svc: Service)
    requires Inv(s)
    requires svc.masterSafe.Some? ==> svc.masterSafe.value in s.masters
    ensures Inv(DiscoverAgent(s, a, sid, svc)) && Extends(s, DiscoverAgent(s, a, sid, svc))
  {
    DiscoverAgentExtends(s, a, sid, svc);
    DiscoverAgentSpawns(s, a, sid, svc);
    DiscoverAgentLinks(s, a, sid, svc);
    BalancesSurvive(s, DiscoverAgent(s, a, sid, svc));
  }

  /** Tables the links do not read may change freely; a changed service keeps a known Master Safe. */
  lemma SaveServiceKeepsInv(s: State, sid: nat, svc: Service)
    requires Inv(s)
    requires svc.masterSafe.Some? ==> svc.masterSafe.value in s.masters
    ensures Inv(SaveService(s, sid, svc)) && Extends(s, SaveService(s, sid, svc))
  {
    LinksSurvive(s, SaveService(s, sid, svc));
  }

  ghost predicate Framed(s: State, s': State) {
    && s'.tracked == s.tracked && s'.masters.Keys == s.masters.Keys && s'.agents == s.agents
    && s'.spawned == s.spawned && s'.staking == s.staking
    && forall sid :: sid in s'.services && s'.services[sid].masterSafe.Some? ==>
         sid in s.services && s'.services[sid].masterSafe == s.services[sid].masterSafe
  }

  lemma FramedKeepsInv(s: State, s': State)
    requires Inv(s) && Framed(s, s') && BalancesTracked(s')
    ensures Inv(s') && Extends(s, s')
  {
    LinksSurvive(s, s');
  }

  lemma ExtendsTransitive(s: State, m: State, s': State)
    requires Extends(s, m) && Extends(m, s')
    ensures Extends(s, s')
  {
  }

  lemma LinkMultisigKeepsInv(s: State, sid: nat, multisig: Address, svc: Service)
    requires Inv(s)
    requires svc.masterSafe.Some? ==> svc.masterSafe.value in s.masters
    ensures var s' := SaveService(DiscoverAgent(s, multisig, sid, svc), sid, svc.(agentSafe := Some(multisig)));
            Inv(s') && Extends(s, s')
  {
    var d := DiscoverAgent(s, multisig, sid, svc);
    DiscoverAgentKeepsInv(s, multisig, sid, svc);
    SaveServiceKeepsInv(d, sid, svc.(agentSafe := Some(multisig)));
    ExtendsTransitive(s, d, SaveService(d, sid, svc.(agentSafe := Some(multisig))));
  }

  lemma CreateMultisigKeepsInv(s: State, sid: nat, multisig: Address)
    requires Inv(s)
    ensures Inv(CreateMultisig(s, sid, multisig)) && Extends(s, CreateMultisig(s, sid, multisig))
  {
    LinkMultisigKeepsInv(s, sid, multisig,
                         ServiceOf(s, sid).(operators := Merge(ServiceOf(s, sid).operators, PendingOf(s, sid))));
  }

  lemma MoveNftKeepsInv(s: State, sid: nat, recipient: Address, probe: Option<seq<Address>>)
    requires Inv(s)
    ensures Inv(MoveNft(s, sid, recipient, probe)) && Extends(s, MoveNft(s, sid, recipient, probe))
  {
    var svc := ServiceOf(s, sid);
    if recipient == ZERO_ADDRESS || recipient in s.staking {
      SaveServiceKeepsInv(s, sid, svc);
    } else {
      var d := DiscoverMaster(s, recipient, probe);
      DiscoverMasterKeepsInv(s, recipient, probe);
      SaveServiceKeepsInv(d, sid, if recipient in d.masters then svc.(masterSafe := Some(recipient)) else svc);
    }
  }

  lemma StakeKeepsInv(s: State, sid: nat, owner: Address, multisig: Address, probe: Option<seq<Address>>)
    requires Inv(s)
    ensures Inv(Stake(s, sid, owner, multisig, probe)) && Extends(s, Stake(s, sid, owner, multisig, probe))
  {
    var d := DiscoverMaster(s, owner, probe);
    DiscoverMasterKeepsInv(s, owner, probe);
    var svc := if owner in d.masters then ServiceOf(s, sid).(masterSafe := Some(owner)) else ServiceOf(s, sid);
    assert svc.masterSafe.Some? ==> svc.masterSafe.value in d.masters;
    LinkMultisigKeepsInv(d, sid, multisig, svc);
    ExtendsTransitive(s, d, Stake(s, sid, owner, multisig, probe));
  }

  lemma CreateProxyKeepsInv(s: State, proxy: Address, accepted: bool)
    requires Inv(s)
    ensures Inv(CreateProxy(s, proxy, accepted)) && Extends(s, CreateProxy(s, proxy, accepted))
  {
    var s' := CreateProxy(s, proxy, accepted);
    LinksSurvive(s, s');
    forall x | x in s'.tracked ensures LinkOk(s', x) {
    }
  }

  lemma BookFrames(cfg: Config, s: State, h: Header, c: Classification, token: Option<Address>,
                   from: Address, to: Address, amount: nat)
    ensures Framed(s, Book(cfg, s, h, c, token, from, to, amount))
    ensures Book(cfg, s, h, c, token, from, to, amount).balances == s.balances
  {
  }

  lemma TransferBalancesTracked(cfg: Config, s: State, token: Address, from: Address, to: Address, amount: nat)
    requires BalancesTracked(s)
    ensures BalancesTracked(s.(balances := TransferBalances(cfg, s, token, from, to, amount)))
  {
  }

  lemma TransferKeepsInv(cfg: Config, s: State, h: Header, token: Address, from: Address, to: Address, amount: nat)
    requires Inv(s)
    ensures var s' := TransferErc20(cfg, s, h, token, from, to, amount); Inv(s') && Extends(s, s')
  {
    var c := Classify(cfg, s, from, to);
    var s' := TransferErc20(cfg, s, h, token, from, to, amount);
    if c.Some? {
      BookFrames(cfg, s, h, c.value, Some(token), from, to, amount);
      TransferBalancesTracked(cfg, s, token, from, to, amount);
      assert BalancesTracked(s');
    }
    FramedKeepsInv(s, s');
  }

  lemma ReceiveKeepsInv(cfg: Config, s: State, h: Header, safe: Address, sender: Address, amount: nat)
    requires Inv(s)
    ensures var s' := ReceiveNative(cfg, s, h, safe, sender, amount); Inv(s') && Extends(s, s')
  {
    var c := Classify(cfg, s, sender, safe);
    if c.Some? {
      BookFrames(cfg, s, h, c.value, None, sender, safe, amount);
    }
    FramedKeepsInv(s, ReceiveNative(cfg, s, h, safe, sender, amount));
  }

  lemma MoveBondKeepsInv(s: State, account: Address, token: Address, delta: int)
    requires Inv(s)
    ensures Inv(MoveBond(s, account, token, delta)) && Extends(s, MoveBond(s, account, token, delta))
  {
    FramedKeepsInv(s, MoveBond(s, account, token, delta));
  }

  lemma SavePendingKeepsInv(s: State, sid: nat, operators: seq<Address>)
    requires Inv(s)
    ensures Inv(SavePending(s, sid, operators)) && Extends(s, SavePending(s, sid, operators))
  {
    FramedKeepsInv(s, SavePending(s, sid, operators));
  }

  lemma RegisterInstanceKeepsInv(s: State, sid: nat, operator: Address)
    requires Inv(s)
    ensures Inv(RegisterInstance(s, sid, operator)) && Extends(s, RegisterInstance(s, sid, operator))
  {
    if sid in s.services {
      SaveServiceKeepsInv(s, sid, s.services[sid].(operators := AddOnce(s.services[sid].operators, operator)));
    } else {
      SavePendingKeepsInv(s, sid, AddOnce(PendingOf(s, sid), operator));
    }
  }

  lemma AddRewardKeepsInv(s: State, sid: nat, amount: nat, time: nat)
    requires Inv(s)
    ensures Inv(AddReward(s, sid, amount, time)) && Extends(s, AddReward(s, sid, amount, time))
  {
    FramedKeepsInv(s, AddReward(s, sid, amount, time));
  }

  lemma AppendRowKeepsInv(s: State, row: Row)
    requires Inv(s)
    ensures Inv(AppendRow(s, row)) && Extends(s, AppendRow(s, row))
  {
    FramedKeepsInv(s, AppendRow(s, row));
  }

  lemma ClaimKeepsInv(cfg: Config, s: State, h: Header, proxy: Address, sid: nat, owner: Address, multisig: Address,
                      reward: nat)
    requires Inv(s)
    ensures var s' := ClaimReward(cfg, s, h, proxy, sid, owner, multisig, reward); Inv(s') && Extends(s, s')
  {
    var row := StakingRow(EventRow(h.tx, h.logIndex), StakingRewardClaim, sid, ServiceOf(s, sid), owner, multisig,
                          Some(cfg.olas), reward, proxy);
    AppendRowKeepsInv(s, row);
    AddRewardKeepsInv(AppendRow(s, row), sid, reward, h.time);
    ExtendsTransitive(s, AppendRow(s, row), ClaimReward(cfg, s, h, proxy, sid, owner, multisig, reward));
  }

  lemma UnstakeKeepsInv(cfg: Config, s: State, h: Header, proxy: Address, sid: nat, owner: Address, multisig: Address,
                        reward: nat)
    requires Inv(s)
    ensures var s' := Unstake(cfg, s, h, proxy, sid, owner, multisig, reward); Inv(s') && Extends(s, s')
  {
    var row := StakingRow(EventRow(h.tx, h.logIndex), UnstakeReward, sid, ServiceOf(s, sid), owner, multisig,
                          Some(cfg.olas), reward, proxy);
    var m := SaveService(AppendRow(s, row), sid, ServiceOf(s, sid));
    FramedKeepsInv(s, m);
    AddRewardKeepsInv(m, sid, reward, h.time);
    ExtendsTransitive(s, m, Unstake(cfg, s, h, proxy, sid, owner, multisig, reward));
  }

  lemma EvictKeepsInv(s: State, h: Header, proxy: Address, sids: seq<nat>, owners: seq<Address>,
                      multisigs: seq<Address>)
    requires Inv(s) && Fits(|sids|)
    ensures var s' := Evict(s, h, proxy, sids, owners, multisigs); Inv(s') && Extends(s, s')
  {
    FramedKeepsInv(s, Evict(s, h, proxy, sids, owners, multisigs));
  }

  lemma SaveMasterKeepsInv(s: State, safe: Address, m: MasterSafe)
    requires Inv(s) && safe in s.masters
    ensures var s' := s.(masters := s.masters[safe := m]); Inv(s') && Extends(s, s')
  {
    FramedKeepsInv(s, s.(masters := s.masters[safe := m]));
  }

  lemma AddOwnerKeepsInv(s: State, safe: Address, owner: Address)
    requires Inv(s)
    ensures Inv(AddOwner(s, safe, owner)) && Extends(s, AddOwner(s, safe, owner))
  {
    if safe in s.masters {
      SaveMasterKeepsInv(s, safe, s.masters[safe].(owners := AddOnce(s.masters[safe].owners, owner)));
    }
  }

  lemma RemoveOwnerKeepsInv(s: State, safe: Address, owner: Address)
    requires Inv(s)
    ensures Inv(RemoveOwner(s, safe, owner)) && Extends(s, RemoveOwner(s, safe, owner))
  {
    if safe in s.masters {
      SaveMasterKeepsInv(s, safe, RemoveOwner(s, safe, owner).masters[safe]);
    }
  }

  lemma FundsKeepInv(cfg: Config, s: State, e: Event)
    requires Inv(s) && WellFormed(e) && !IsDiscovery(e)
    ensures Inv(StepFunds(cfg, s, e)) && Extends(s, StepFunds(cfg, s, e))
  {
    var s' := StepFunds(cfg, s, e);
    match e
    case Erc20Transfer(h, token, from, to, amount) => TransferKeepsInv(cfg, s, h, token, from, to, amount);
    case NativeReceived(h, safe, sender, amount) => ReceiveKeepsInv(cfg, s, h, safe, sender, amount);
    case BondDeposit(_, account, token, amount) =>
      assert s' == MoveBond(s, account, token, 0 - amount);
      MoveBondKeepsInv(s, account, token, 0 - amount);
    case BondRefund(_, account, token, amount) =>
      assert s' == MoveBond(s, account, token, amount);
      MoveBondKeepsInv(s, account, token, amount);
    case RewardClaimed(h, proxy, sid, owner, multisig, reward) =>
      assert s' == ClaimReward(cfg, s, h, proxy, sid, owner, multisig, reward);
      ClaimKeepsInv(cfg, s, h, proxy, sid, owner, multisig, reward);
    case Unstaked(h, proxy, sid, owner, multisig, reward) =>
      assert s' == Unstake(cfg, s, h, proxy, sid, owner, multisig, reward);
      UnstakeKeepsInv(cfg, s, h, proxy, sid, owner, multisig, reward);
    case Evicted(h, proxy, sids, owners, multisigs) =>
      assert s' == Evict(s, h, proxy, sids, owners, multisigs);
      EvictKeepsInv(s, h, proxy, sids, owners, multisigs);
  }

  lemma DiscoveryKeepsInv(s: State, e: Event)
    requires Inv(s) && IsDiscovery(e)
    ensures Inv(StepDiscovery(s, e)) && Extends(s, StepDiscovery(s, e))
  {
    match e
    case InstanceRegistered(_, sid, operator) => RegisterInstanceKeepsInv(s, sid, operator);
    case MultisigCreated(_, sid, multisig) => CreateMultisigKeepsInv(s, sid, multisig);
    case NftMoved(_, sid, recipient, probe) => MoveNftKeepsInv(s, sid, recipient, probe);
    case Terminated(_, sid) => SaveServiceKeepsInv(s, sid, ServiceOf(s, sid));
    case Staked(_, sid, owner, multisig, probe) => StakeKeepsInv(s, sid, owner, multisig, probe);
    case ProxyCreated(_, proxy, accepted) => CreateProxyKeepsInv(s, proxy, accepted);
    case OwnerAdded(_, safe, owner) => AddOwnerKeepsInv(s, safe, owner);
    case OwnerRemoved(_, safe, owner) => RemoveOwnerKeepsInv(s, safe, owner);
  }

  /** No handler breaks the links, spawns a template twice or re-tags a tracked address. */
  lemma StepKeepsInv(cfg: Config, s: State, e: Event)
    requires Inv(s) && WellFormed(e)
    ensures Inv(Step(cfg, s, e)) && Extends(s, Step(cfg, s, e))
  {
    if IsDiscovery(e) {
      DiscoveryKeepsInv(s, e);
    } else {
      FundsKeepInv(cfg, s, e);
    }
  }

  lemma {:induction false} RunKeepsInv(cfg: Config, es: Trace)
    ensures Inv(Run(cfg, es))
  {
    if es != [] {
      RunKeepsInv(cfg, es[..|es| - 1]);
      StepKeepsInv(cfg, Run(cfg, es[..|es| - 1]), es[|es| - 1]);
    }
  }

  /** Along a run, nothing discovered is lost or re-tagged. */
  lemma {:induction false} RunExtends(cfg: Config, es: Trace, k: nat)
    requires k <= |es|
    ensures Extends(Run(cfg, es[..k]), Run(cfg, es))
    decreases |es|
  {
    if k == |es| {
      assert es[..k] == es;
    } else {
      var init := es[..|es| - 1];
      RunExtends(cfg, init, k);
      assert init[..k] == es[..k];
      RunKeepsInv(cfg, init);
      StepKeepsInv(cfg, Run(cfg, init), es[|es| - 1]);
    }
  }

  // ----- which Agent Safes are tracked -------------------------------------

  /** The state in which an event looks its multisig up: staking discovers the owner first. */
  function BeforeMultisig(s: State, e: Event): State {
    if e.Staked? then DiscoverMaster(s, e.owner, e.probe) else s
  }

  /** The event stores `a` as an Agent Safe for the first time. */
  predicate DiscoversAgent(s: State, e: Event, a: Address)
    requires IsDiscovery(e)
  {
    a !in s.agents && a in StepDiscovery(s, e).agents
  }

  lemma DiscoverAgentTracks(s: State, a: Address, sid: nat, svc: Service)
    requires Linked(s) && a !in s.agents
    ensures var s' := DiscoverAgent(s, a, sid, svc);
            && s'.agents.Keys == s.agents.Keys + {a} && s'.agents[a].masterSafe == svc.masterSafe
            && (Has(s'.tracked, a, Agent) <==> svc.masterSafe.Some? && a !in s.tracked)
            && (svc.masterSafe.Some? ==> a in s'.tracked)
  {
    assert a in s.tracked ==> LinkOk(s, a);
  }

  /** What the event that discovers `a` leaves: tracked as an Agent Safe exactly when linked and not tracked before. */
  ghost predicate DiscoveredRight(s: State, before: State, a: Address)
  {
    && a in s.agents && (Has(s.tracked, a, Agent) <==> s.agents[a].masterSafe.Some? && a !in before.tracked)
    && (s.agents[a].masterSafe.Some? ==> a in s.tracked)
  }

  lemma MultisigDiscovers(s: State, sid: nat, a: Address)
    requires Inv(s) && a !in s.agents
    ensures DiscoveredRight(CreateMultisig(s, sid, a), s, a)
        && CreateMultisig(s, sid, a).agents.Keys == s.agents.Keys + {a}
  {
    DiscoverAgentTracks(s, a, sid,
                        ServiceOf(s, sid).(operators := Merge(ServiceOf(s, sid).operators, PendingOf(s, sid))));
  }

  /** The service as a staking event knows it when it looks the multisig up. */
  function StakedService(s: State, sid: nat, owner: Address, probe: Option<seq<Address>>): Service {
    if owner in DiscoverMaster(s, owner, probe).masters then ServiceOf(s, sid).(masterSafe := Some(owner))
        else ServiceOf(s, sid)
  }

  lemma StakeIsDiscovery(s: State, sid: nat, owner: Address, a: Address, probe: Option<seq<Address>>)
    ensures var s', d := Stake(s, sid, owner, a, probe), DiscoverMaster(s, owner, probe);
            var x := DiscoverAgent(d, a, sid, StakedService(s, sid, owner, probe));
            s'.tracked == x.tracked && s'.agents == x.agents && d.agents == s.agents
  {
  }

  lemma StakeDiscovers(s: State, sid: nat, owner: Address, a: Address, probe: Option<seq<Address>>)
    requires Inv(s) && a !in s.agents
    ensures DiscoveredRight(Stake(s, sid, owner, a, probe), DiscoverMaster(s, owner, probe), a)
    ensures Stake(s, sid, owner, a, probe).agents.Keys == s.agents.Keys + {a}
  {
    var d, svc := DiscoverMaster(s, owner, probe), StakedService(s, sid, owner, probe);
    assert Inv(d) by { DiscoverMasterKeepsInv(s, owner, probe); }
    StakeIsDiscovery(s, sid, owner, a, probe);
    DiscoverAgentTracks(d, a, sid, svc);
  }

  lemma NftDiscoversNone(s: State, sid: nat, recipient: Address, probe: Option<seq<Address>>)
    ensures MoveNft(s, sid, recipient, probe).agents == s.agents
  {
    assert DiscoverMaster(s, recipient, probe).agents == s.agents;
  }

  lemma OnlyMultisigs(s: State, e: Event)
    requires IsDiscovery(e) && !e.MultisigCreated? && !e.Staked?
    ensures StepDiscovery(s, e).agents == s.agents
  {
    if e.NftMoved? {
      NftDiscoversNone(s, e.sid, e.recipient, e.probe);
    } else if e.InstanceRegistered? {
      assert RegisterInstance(s, e.sid, e.operator).agents == s.agents;
    } else if e.OwnerRemoved? {
      assert RemoveOwner(s, e.safe, e.owner).agents == s.agents;
    }
  }

  lemma DiscoveringEvent(s: State, e: Event, a: Address)
    requires Inv(s) && IsDiscovery(e) && DiscoversAgent(s, e, a)
    ensures DiscoveredRight(StepDiscovery(s, e), BeforeMultisig(s, e), a)
  {
    if e.MultisigCreated? {
      if e.multisig !in s.agents {
        MultisigDiscovers(s, e.sid, e.multisig);
      }
    } else if e.Staked? {
      if e.multisig !in s.agents {
        StakeDiscovers(s, e.sid, e.owner, e.multisig, e.probe);
      }
    } else {
      OnlyMultisigs(s, e);
    }
  }

  lemma FundsFindNoAgent(cfg: Config, s: State, e: Event, a: Address)
    requires WellFormed(e) && a !in s.agents && a in Step(cfg, s, e).agents
    ensures IsDiscovery(e)
  {
    if !IsDiscovery(e) {
      FundsFrame(cfg, s, e);
    }
  }

  /** Every stored Agent Safe was discovered by one event of the run. */
  lemma {:induction false} AgentDiscoveredAt(cfg: Config, es: Trace, a: Address) returns (k: nat)
    requires a in Run(cfg, es).agents
    ensures k < |es| && IsDiscovery(es[k]) && DiscoversAgent(Run(cfg, es[..k]), es[k], a)
  {
    var init, e := es[..|es| - 1], es[|es| - 1];
    if a in Run(cfg, init).agents {
      k := AgentDiscoveredAt(cfg, init, a);
      assert init[..k] == es[..k];
    } else {
      k := |es| - 1;
      FundsFindNoAgent(cfg, Run(cfg, init), e, a);
    }
  }

  /**
   A discovered Agent Safe is tracked as one, at any later time, if and only if its service had a Master Safe
   and its address was not tracked yet when it was discovered; both are settled by then for good.
   */
  lemma AgentTrackedIff(cfg: Config, es: Trace, k: nat, a: Address)
    requires k < |es| && IsDiscovery(es[k]) && DiscoversAgent(Run(cfg, es[..k]), es[k], a)
    ensures a in Run(cfg, es).agents
    ensures Has(Run(cfg, es).tracked, a, Agent) <==>
              Run(cfg, es).agents[a].masterSafe.Some? && a !in BeforeMultisig(Run(cfg, es[..k]), es[k]).tracked
  {
    var s, s' := Run(cfg, es[..k]), Run(cfg, es[..k + 1]);
    assert es[..k + 1][..k] == es[..k];
    assert s' == StepDiscovery(s, es[k]);
    RunKeepsInv(cfg, es[..k]);
    RunKeepsInv(cfg, es);
    RunExtends(cfg, es, k + 1);
    DiscoveringEvent(s, es[k], a);
    assert a in Run(cfg, es).tracked ==> LinkOk(Run(cfg, es), a);
  }

  /**
   In particular one first seen while its service had no Master Safe never is, however the service is linked later.
   */
  lemma MasterlessAgentNeverTracked(cfg: Config, es: Trace, k: nat, a: Address)
    requires k <= |es| && a in Run(cfg, es[..k]).agents && Run(cfg, es[..k]).agents[a].masterSafe.None?
    ensures a in Run(cfg, es).agents && !Has(Run(cfg, es).tracked, a, Agent)
  {
    RunExtends(cfg, es, k);
    var d := AgentDiscoveredAt(cfg, es, a);
    AgentTrackedIff(cfg, es, d, a);
  }
}
