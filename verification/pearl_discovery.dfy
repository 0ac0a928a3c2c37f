/** What the events of a run say of the Master Safes, the Agent Safes, the staking proxies and the watched addresses. */
module PearlDiscovery {
  import opened Collections
  import opened PearlIds
  import opened PearlState
  import opened PearlFrames
  import opened PearlInvariants
  import opened PearlServices

  // ----- staking proxies ---------------------------------------------------

  predicate Accepts(e: Event, p: Address) {
    e.ProxyCreated? && e.proxy == p && e.accepted
  }

  ghost predicate Accepted(es: Trace, p: Address) {
    exists i :: 0 <= i < |es| && Accepts(es[i], p)
  }

  lemma AcceptedNext(es: Trace, p: Address)
    requires es != []
    ensures Accepted(es, p) <==> Accepted(es[..|es| - 1], p) || Accepts(es[|es| - 1], p)
  {
    var init := es[..|es| - 1];
    assert forall i :: 0 <= i < |init| ==> init[i] == es[i];
  }

  // ----- one step of the four tables ---------------------------------------

  /** Answered with owners by an address that the event hands a service to. */
  predicate Answers(s: State, e: Event, a: Address) {
    && (e.NftMoved? || e.Staked?) && Candidate(e) == a && e.probe.Some? && e.probe.value != []
    && (e.NftMoved? ==> a != 0 && a !in s.staking)
  }

  /** The event stores `a` as a new Master Safe. */
  predicate FindsMaster(s: State, e: Event, a: Address) {
    a !in s.masters && Answers(s, e, a)
  }

  /** The event stores `a` as a new Agent Safe. */
  predicate FindsAgent(s: State, e: Event, a: Address) {
    a !in s.agents && (e.MultisigCreated? || e.Staked?) && e.multisig == a
  }

  /** A new Master Safe is filed as MASTER and its first owner as MASTER_EOA. */
  function MasterClaim(s: State, e: Event, a: Address): Option<Tracked> {
    if FindsMaster(s, e, a) then Some(Tracked(Master, Some(a), None))
    else if (e.NftMoved? || e.Staked?) && FindsMaster(s, e, Candidate(e)) && a == e.probe.value[0] && a != 0 then
      Some(Tracked(MasterEoa, Some(Candidate(e)), None))
    else None
  }

  /** A new Agent Safe of a linked service is filed as AGENT, the operators but the Master Safe as AGENT_EOA. */
  function AgentClaim(s: State, s': State, e: Event, a: Address): Option<Tracked> {
    if !e.MultisigCreated? && !e.Staked? then None
    else
      var svc := StoredService(s', e.sid);
      if e.multisig in s.agents || svc.masterSafe.None? then None
      else if a == e.multisig then Some(Tracked(Agent, svc.masterSafe, Some(e.sid)))
      else if a in svc.operators && svc.masterSafe != Some(a) then Some(Tracked(AgentEoa, svc.masterSafe, Some(e.sid)))
      else None
  }

  function First(x: Option<Tracked>, y: Option<Tracked>): Option<Tracked> {
    if x.Some? then x else y
  }

  /** What an event that finds the address untracked files it as, if anything: the first claim wins. */
  function ClaimOf(s: State, s': State, e: Event, a: Address): Option<Tracked> {
    First(MasterClaim(s, e, a),
          First(AgentClaim(s, s', e, a), if Accepts(e, a) then Some(Tracked(Staking, None, None)) else None))
  }

  function Lookup(t: Roles, a: Address): Option<Tracked> {
    if a in t then Some(t[a]) else None
  }

  ghost predicate TrackedStep(s: State, s': State, e: Event, a: Address) {
    Lookup(s'.tracked, a) == if a in s.tracked then Some(s.tracked[a]) else ClaimOf(s, s', e, a)
  }

  ghost predicate SafesStep(s: State, s': State, e: Event, a: Address) {
    && (a in s'.masters <==> a in s.masters || FindsMaster(s, e, a))
    && (FindsMaster(s, e, a) ==> s'.masters[a] == MasterSafe(e.probe.value[0], e.probe.value, false))
    && (a in s'.agents <==> a in s.agents || FindsAgent(s, e, a))
    && (a in s.agents ==> s'.agents[a] == s.agents[a])
    && (FindsAgent(s, e, a) ==> s'.agents[a] == AgentSafe(e.sid, StoredService(s', e.sid).masterSafe))
    && (a in s'.staking <==> a in s.staking || Accepts(e, a))
  }

  ghost predicate SameTables(s: State, s': State) {
    s'.tracked == s.tracked && s'.masters == s.masters && s'.agents == s.agents && s'.staking == s.staking
  }

  lemma MasterFound(s: State, a: Address, probe: Option<seq<Address>>)
    ensures var s' := DiscoverMaster(s, a, probe);
            && s'.agents == s.agents && s'.staking == s.staking
            && (if a !in s.masters && probe.Some? && probe.value != [] then
                  && s'.masters == s.masters[a := MasterSafe(probe.value[0], probe.value, false)]
                  && s'.tracked == TrackMaster(s.tracked, a, probe.value[0])
                else s'.masters == s.masters && s'.tracked == s.tracked)
  {
  }

  lemma AgentFound(s: State, a: Address, sid: nat, svc: Service)
    ensures var s' := DiscoverAgent(s, a, sid, svc);
            && s'.masters == s.masters && s'.staking == s.staking
            && (if a in s.agents then s'.agents == s.agents && s'.tracked == s.tracked
                else
                  && s'.agents == s.agents[a := AgentSafe(sid, svc.masterSafe)]
                  && s'.tracked == TrackAgent(s.tracked, a, sid, svc))
  {
  }

  lemma NftTables(s: State, sid: nat, recipient: Address, probe: Option<seq<Address>>)
    ensures if recipient == 0 || recipient in s.staking then SameTables(s, MoveNft(s, sid, recipient, probe))
            else SameTables(DiscoverMaster(s, recipient, probe), MoveNft(s, sid, recipient, probe))
  {
  }

  lemma NftSafes(s: State, e: Event, a: Address)
    requires e.NftMoved?
    ensures SafesStep(s, MoveNft(s, e.sid, e.recipient, e.probe), e, a)
  {
    NftTables(s, e.sid, e.recipient, e.probe);
    MasterFound(s, e.recipient, e.probe);
  }

  lemma NftTracked(s: State, e: Event, a: Address)
    requires e.NftMoved?
    ensures TrackedStep(s, MoveNft(s, e.sid, e.recipient, e.probe), e, a)
  {
    NftTables(s, e.sid, e.recipient, e.probe);
    MasterFound(s, e.recipient, e.probe);
    if FindsMaster(s, e, e.recipient) {
      MasterClaims(s.tracked, e.recipient, e.probe.value[0], a);
    }
  }

  lemma MultisigTables(s: State, sid: nat, multisig: Address)
    ensures var svc := ServiceOf(s, sid).(operators := Merge(ServiceOf(s, sid).operators, PendingOf(s, sid)));
            var s' := CreateMultisig(s, sid, multisig);
            && SameTables(DiscoverAgent(s, multisig, sid, svc), s')
            && StoredService(s', sid).masterSafe == svc.masterSafe && StoredService(s', sid).operators == svc.operators
  {
  }

  lemma MultisigStep(s: State, e: Event, a: Address)
    requires e.MultisigCreated?
    ensures var s' := CreateMultisig(s, e.sid, e.multisig);
            SafesStep(s, s', e, a) && TrackedStep(s, s', e, a)
  {
    var svc := ServiceOf(s, e.sid).(operators := Merge(ServiceOf(s, e.sid).operators, PendingOf(s, e.sid)));
    MultisigTables(s, e.sid, e.multisig);
    AgentFound(s, e.multisig, e.sid, svc);
  }

  lemma StakeTables(s: State, sid: nat, owner: Address, multisig: Address, probe: Option<seq<Address>>)
    ensures var d := DiscoverMaster(s, owner, probe);
            var svc := if owner in d.masters then ServiceOf(s, sid).(masterSafe := Some(owner)) else ServiceOf(s, sid);
            var s' := Stake(s, sid, owner, multisig, probe);
            && SameTables(DiscoverAgent(d, multisig, sid, svc), s')
            && StoredService(s', sid).masterSafe == svc.masterSafe && StoredService(s', sid).operators == svc.operators
  {
  }

  lemma StakeSafes(s: State, e: Event, a: Address)
    requires e.Staked?
    ensures SafesStep(s, Stake(s, e.sid, e.owner, e.multisig, e.probe), e, a)
  {
    var d := DiscoverMaster(s, e.owner, e.probe);
    var svc := if e.owner in d.masters then ServiceOf(s, e.sid).(masterSafe := Some(e.owner)) else ServiceOf(s, e.sid);
    StakeTables(s, e.sid, e.owner, e.multisig, e.probe);
    MasterFound(s, e.owner, e.probe);
    AgentFound(d, e.multisig, e.sid, svc);
  }

  lemma MasterClaims(t: Roles, a: Address, eoa: Address, x: Address)
    ensures Lookup(TrackMaster(t, a, eoa), x)
         == if x in t then Some(t[x])
            else if x == a then Some(Tracked(Master, Some(a), None))
            else if x == eoa && x != 0 then Some(Tracked(MasterEoa, Some(a), None))
            else None
  {
  }

  lemma AgentClaims(t: Roles, a: Address, sid: nat, svc: Service, x: Address)
    ensures Lookup(TrackAgent(t, a, sid, svc), x)
         == if x in t then Some(t[x])
            else if svc.masterSafe.None? then None
            else if x == a then Some(Tracked(Agent, svc.masterSafe, Some(sid)))
            else if x in svc.operators && svc.masterSafe != Some(x) then
              Some(Tracked(AgentEoa, svc.masterSafe, Some(sid)))
            else None
  {
  }

  lemma StakeFindsMaster(s: State, e: Event, a: Address)
    requires e.Staked?
    ensures Lookup(DiscoverMaster(s, e.owner, e.probe).tracked, a) == First(Lookup(s.tracked, a), MasterClaim(s, e, a))
  {
    MasterFound(s, e.owner, e.probe);
    if FindsMaster(s, e, e.owner) {
      MasterClaims(s.tracked, e.owner, e.probe.value[0], a);
    }
  }

  lemma StakeFindsAgent(s: State, e: Event, a: Address)
    requires e.Staked?
    ensures var s' := Stake(s, e.sid, e.owner, e.multisig, e.probe);
            Lookup(s'.tracked, a)
              == First(Lookup(DiscoverMaster(s, e.owner, e.probe).tracked, a), AgentClaim(s, s', e, a))
  {
    var d := DiscoverMaster(s, e.owner, e.probe);
    var svc := if e.owner in d.masters then ServiceOf(s, e.sid).(masterSafe := Some(e.owner)) else ServiceOf(s, e.sid);
    StakeTables(s, e.sid, e.owner, e.multisig, e.probe);
    assert d.agents == s.agents by { MasterFound(s, e.owner, e.probe); }
    AgentFound(d, e.multisig, e.sid, svc);
    AgentClaims(d.tracked, e.multisig, e.sid, svc, a);
  }

  lemma StakeTracked(s: State, e: Event, a: Address)
    requires e.Staked?
    ensures TrackedStep(s, Stake(s, e.sid, e.owner, e.multisig, e.probe), e, a)
  {
    StakeFindsMaster(s, e, a);
    StakeFindsAgent(s, e, a);
  }

  lemma ProxyStep(s: State, e: Event, a: Address)
    requires e.ProxyCreated?
    ensures var s' := CreateProxy(s, e.proxy, e.accepted);
            SafesStep(s, s', e, a) && TrackedStep(s, s', e, a)
  {
  }

  /** The tables an event leaves that finds no Safe and accepts no proxy; owners and setup flags may change. */
  ghost predicate KeepsTables(s: State, s': State) {
    s'.tracked == s.tracked && s'.masters.Keys == s.masters.Keys && s'.agents == s.agents && s'.staking == s.staking
  }

  predicate FindsNothing(e: Event) {
    !e.NftMoved? && !e.MultisigCreated? && !e.Staked? && !e.ProxyCreated?
  }

  lemma KeptStep(s: State, s': State, e: Event, a: Address)
    requires FindsNothing(e) && KeepsTables(s, s')
    ensures SafesStep(s, s', e, a) && TrackedStep(s, s', e, a)
  {
  }

  lemma RegistrationKeepsTables(s: State, sid: nat, operator: Address)
    ensures KeepsTables(s, RegisterInstance(s, sid, operator))
  {
    if sid in s.services {
      var svc := s.services[sid].(operators := AddOnce(s.services[sid].operators, operator));
      assert RegisterInstance(s, sid, operator) == SaveService(s, sid, svc);
    } else {
      assert RegisterInstance(s, sid, operator) == SavePending(s, sid, AddOnce(PendingOf(s, sid), operator));
    }
  }

  lemma AddedOwnerKeepsTables(s: State, safe: Address, owner: Address)
    ensures KeepsTables(s, AddOwner(s, safe, owner))
  {
  }

  lemma RemovedOwnerKeepsTables(s: State, safe: Address, owner: Address)
    ensures KeepsTables(s, RemoveOwner(s, safe, owner))
  {
  }

  lemma TransfersKeepProxies(cfg: Config, s: State, h: Header, token: Address, from: Address, to: Address, amount: nat)
    ensures TransferErc20(cfg, s, h, token, from, to, amount).staking == s.staking
    ensures ReceiveNative(cfg, s, h, to, from, amount).staking == s.staking
  {
  }

  lemma RewardsKeepProxies(cfg: Config, s: State, h: Header, proxy: Address, sid: nat, owner: Address,
                           multisig: Address, reward: nat)
    ensures ClaimReward(cfg, s, h, proxy, sid, owner, multisig, reward).staking == s.staking
    ensures Unstake(cfg, s, h, proxy, sid, owner, multisig, reward).staking == s.staking
  {
  }

  lemma FundsKeepProxies(cfg: Config, s: State, e: Event)
    requires WellFormed(e) && !IsDiscovery(e)
    ensures StepFunds(cfg, s, e).staking == s.staking
  {
    if e.Erc20Transfer? {
      TransfersKeepProxies(cfg, s, e.h, e.token, e.from, e.to, e.amount);
    } else if e.NativeReceived? {
      TransfersKeepProxies(cfg, s, e.h, 0, e.sender, e.safe, e.amount);
    } else if e.RewardClaimed? || e.Unstaked? {
      RewardsKeepProxies(cfg, s, e.h, e.proxy, e.sid, e.owner, e.multisig, e.reward);
    } else if e.Evicted? {
      assert Evict(s, e.h, e.proxy, e.sids, e.owners, e.multisigs).staking == s.staking;
    }
  }

  lemma OthersKeepTables(cfg: Config, s: State, e: Event)
    requires WellFormed(e) && FindsNothing(e)
    ensures KeepsTables(s, Step(cfg, s, e))
  {
    if !IsDiscovery(e) {
      FundsFrame(cfg, s, e);
      FundsKeepProxies(cfg, s, e);
    } else if e.InstanceRegistered? {
      RegistrationKeepsTables(s, e.sid, e.operator);
    } else if e.OwnerAdded? {
      AddedOwnerKeepsTables(s, e.safe, e.owner);
    } else if e.OwnerRemoved? {
      RemovedOwnerKeepsTables(s, e.safe, e.owner);
    } else {
      SaveServiceFrame(s, e.sid, ServiceOf(s, e.sid));
    }
  }

  lemma StepTables(cfg: Config, s: State, e: Event, a: Address)
    requires WellFormed(e)
    ensures SafesStep(s, Step(cfg, s, e), e, a) && TrackedStep(s, Step(cfg, s, e), e, a)
  {
    if e.NftMoved? {
      NftSafes(s, e, a);
      NftTracked(s, e, a);
    } else if e.MultisigCreated? {
      MultisigStep(s, e, a);
    } else if e.Staked? {
      StakeSafes(s, e, a);
      StakeTracked(s, e, a);
    } else if e.ProxyCreated? {
      ProxyStep(s, e, a);
    } else {
      OthersKeepTables(cfg, s, e);
      KeptStep(s, Step(cfg, s, e), e, a);
    }
  }

  // ----- over runs ---------------------------------------------------------

  /** A staking proxy is known exactly when its creation was accepted. */
  lemma {:induction false} StakingIff(cfg: Config, es: Trace, p: Address)
    ensures p in Run(cfg, es).staking <==> Accepted(es, p)
  {
    if es != [] {
      StakingIff(cfg, es[..|es| - 1], p);
      AcceptedNext(es, p);
      StepTables(cfg, Run(cfg, es[..|es| - 1]), es[|es| - 1], p);
    }
  }

  /** Event `i` hands a service to `a`, which has owners and is neither an accepted proxy nor the burn address. */
  ghost predicate AnswersAt(es: Trace, i: nat, a: Address)
    requires i < |es|
  {
    && (es[i].NftMoved? || es[i].Staked?) && Candidate(es[i]) == a && es[i].probe.Some? && es[i].probe.value != []
    && (es[i].NftMoved? ==> a != 0 && !Accepted(es[..i], a))
  }

  ghost predicate Answered(es: Trace, a: Address) {
    exists i :: 0 <= i < |es| && AnswersAt(es, i, a)
  }

  lemma AnsweredNext(es: Trace, a: Address)
    requires es != []
    ensures Answered(es, a) <==> Answered(es[..|es| - 1], a) || AnswersAt(es, |es| - 1, a)
  {
    var init := es[..|es| - 1];
    assert forall i :: 0 <= i < |init| ==> init[..i] == es[..i];
    assert forall i :: 0 <= i < |init| ==> (AnswersAt(init, i, a) <==> AnswersAt(es, i, a));
  }

  /** The Master Safes are exactly the addresses that answered with owners when a service was handed to them. */
  lemma {:induction false} MastersIff(cfg: Config, es: Trace, a: Address)
    ensures a in Run(cfg, es).masters <==> Answered(es, a)
  {
    if es != [] {
      var init := es[..|es| - 1];
      MastersIff(cfg, init, a);
      AnsweredNext(es, a);
      StakingIff(cfg, init, a);
      StepTables(cfg, Run(cfg, init), es[|es| - 1], a);
    }
  }

  ghost predicate NamedMultisig(es: Trace, a: Address) {
    exists i :: 0 <= i < |es| && (es[i].MultisigCreated? || es[i].Staked?) && es[i].multisig == a
  }

  lemma NamedMultisigNext(es: Trace, a: Address)
    requires es != []
    ensures var e := es[|es| - 1];
            NamedMultisig(es, a) <==>
              NamedMultisig(es[..|es| - 1], a) || ((e.MultisigCreated? || e.Staked?) && e.multisig == a)
  {
    var init := es[..|es| - 1];
    assert forall i :: 0 <= i < |init| ==> init[i] == es[i];
  }

  /** The Agent Safes are exactly the multisigs named by a deployment or a stake. */
  lemma {:induction false} AgentsIff(cfg: Config, es: Trace, a: Address)
    ensures a in Run(cfg, es).agents <==> NamedMultisig(es, a)
  {
    if es != [] {
      AgentsIff(cfg, es[..|es| - 1], a);
      NamedMultisigNext(es, a);
      StepTables(cfg, Run(cfg, es[..|es| - 1]), es[|es| - 1], a);
    }
  }

  /** An Agent Safe belongs to the service that named it first and to the Master Safe this service then had. */
  lemma AgentOfFirstNaming(cfg: Config, es: Trace, i: nat, a: Address)
    requires i < |es| && (es[i].MultisigCreated? || es[i].Staked?) && es[i].multisig == a
    requires !NamedMultisig(es[..i], a)
    ensures var sid := es[i].sid;
            a in Run(cfg, es).agents
            && Run(cfg, es).agents[a] == AgentSafe(sid, StoredService(Run(cfg, es[..i + 1]), sid).masterSafe)
  {
    AgentsIff(cfg, es[..i], a);
    RunNext(cfg, es, i);
    StepTables(cfg, Run(cfg, es[..i]), es[i], a);
    RunExtends(cfg, es, i + 1);
  }

  /** An address is filed by its first claim, and keeps that role, Master Safe and service for good. */
  lemma TrackedByFirstClaim(cfg: Config, es: Trace, k: nat, a: Address)
    requires k < |es| && a !in Run(cfg, es[..k]).tracked
    ensures var claim := ClaimOf(Run(cfg, es[..k]), Run(cfg, es[..k + 1]), es[k], a);
            && Lookup(Run(cfg, es[..k + 1]).tracked, a) == claim
            && (claim.Some? ==> Lookup(Run(cfg, es).tracked, a) == claim)
  {
    RunNext(cfg, es, k);
    StepTables(cfg, Run(cfg, es[..k]), es[k], a);
    RunExtends(cfg, es, k + 1);
  }

  // ----- owners ------------------------------------------------------------

  predicate Adds(e: Event, a: Address, y: Address) {
    e.OwnerAdded? && e.safe == a && e.owner == y
  }

  predicate Removes(e: Event, a: Address, y: Address) {
    e.OwnerRemoved? && e.safe == a && e.owner == y
  }

  /** Removing an owner from a list removes every occurrence and keeps the others in their order. */
  lemma {:induction false} WithoutAppend(s: seq<Address>, t: seq<Address>, x: Address)
    ensures Without(s + t, x) == Without(s, x) + Without(t, x)
    ensures Without([x], x) == [] && forall y :: y != x ==> Without([y], x) == [y]
  {
    assert forall y: Address :: [y][..0] == [];
    if t == [] {
      assert s + t == s;
    } else {
      WithoutAppend(s, t[..|t| - 1], x);
      assert (s + t)[..|s + t| - 1] == s + t[..|t| - 1];
    }
  }

  lemma {:induction false} WithoutHas(s: seq<Address>, x: Address, y: Address)
    ensures y in Without(s, x) <==> y in s && y != x
  {
    if s != [] {
      WithoutHas(s[..|s| - 1], x, y);
      assert s == s[..|s| - 1] + [s[|s| - 1]];
    }
  }

  /** The owners of a Master Safe and its EOA: a removed EOA is replaced by the first owner left, if any. */
  ghost predicate OwnersStep(m: MasterSafe, m': MasterSafe, e: Event, a: Address, y: Address) {
    && (y in m'.owners <==> (y in m.owners && !Removes(e, a, y)) || Adds(e, a, y))
    && (if e.OwnerRemoved? && e.safe == a then m'.owners == Without(m.owners, e.owner) else m.owners <= m'.owners)
    && m'.masterEoa == (if Removes(e, a, m.masterEoa) && m'.owners != [] then m'.owners[0] else m.masterEoa)
  }

  ghost predicate SameOwners(s: State, s': State, a: Address) {
    a in s.masters ==> a in s'.masters && s'.masters[a].owners == s.masters[a].owners
                       && s'.masters[a].masterEoa == s.masters[a].masterEoa
  }

  function WithOwner(m: MasterSafe, owner: Address): MasterSafe {
    m.(owners := AddOnce(m.owners, owner))
  }

  function WithoutOwner(m: MasterSafe, owner: Address): MasterSafe {
    var left := Without(m.owners, owner);
    m.(owners := left, masterEoa := if left != [] && m.masterEoa == owner then left[0] else m.masterEoa)
  }

  lemma AddedOwner(s: State, safe: Address, owner: Address)
    ensures AddOwner(s, safe, owner).masters
         == if safe in s.masters then s.masters[safe := WithOwner(s.masters[safe], owner)] else s.masters
  {
  }

  lemma RemovedOwner(s: State, safe: Address, owner: Address)
    ensures RemoveOwner(s, safe, owner).masters
         == if safe in s.masters then s.masters[safe := WithoutOwner(s.masters[safe], owner)] else s.masters
  {
  }

  lemma BookKeepsOwners(cfg: Config, s: State, h: Header, c: Classification, token: Option<Address>, from: Address,
                        to: Address, amount: nat, a: Address)
    ensures SameOwners(s, Book(cfg, s, h, c, token, from, to, amount), a)
  {
  }

  lemma TransferKeepsOwners(cfg: Config, s: State, h: Header, token: Address, from: Address, to: Address, amount: nat,
                            a: Address)
    ensures SameOwners(s, TransferErc20(cfg, s, h, token, from, to, amount), a)
  {
    var c := Classify(cfg, s, from, to);
    if c.Some? {
      BookKeepsOwners(cfg, s, h, c.value, Some(token), from, to, amount, a);
    }
  }

  lemma ReceiptKeepsOwners(cfg: Config, s: State, h: Header, safe: Address, sender: Address, amount: nat, a: Address)
    ensures SameOwners(s, ReceiveNative(cfg, s, h, safe, sender, amount), a)
  {
    var c := Classify(cfg, s, sender, safe);
    if c.Some? {
      BookKeepsOwners(cfg, s, h, c.value, None, sender, safe, amount, a);
    }
  }

  lemma RewardsKeepMasters(cfg: Config, s: State, e: Event)
    requires WellFormed(e) && !IsDiscovery(e) && !e.Erc20Transfer? && !e.NativeReceived?
    ensures StepFunds(cfg, s, e).masters == s.masters
  {
    if e.RewardClaimed? {
      ClaimFrame(cfg, s, e.h, e.proxy, e.sid, e.owner, e.multisig, e.reward);
    } else if e.Unstaked? {
      UnstakeFrame(cfg, s, e.h, e.proxy, e.sid, e.owner, e.multisig, e.reward);
    } else if e.Evicted? {
      EvictFrame(s, e.h, e.proxy, e.sids, e.owners, e.multisigs);
    }
  }

  lemma FundsKeepOwners(cfg: Config, s: State, e: Event, a: Address)
    requires WellFormed(e) && !IsDiscovery(e)
    ensures SameOwners(s, StepFunds(cfg, s, e), a)
  {
    if e.Erc20Transfer? {
      TransferKeepsOwners(cfg, s, e.h, e.token, e.from, e.to, e.amount, a);
    } else if e.NativeReceived? {
      ReceiptKeepsOwners(cfg, s, e.h, e.safe, e.sender, e.amount, a);
    } else {
      RewardsKeepMasters(cfg, s, e);
    }
  }

  lemma DiscoveryKeepsOwners(s: State, e: Event, a: Address)
    requires IsDiscovery(e) && !e.OwnerAdded? && !e.OwnerRemoved?
    ensures SameOwners(s, StepDiscovery(s, e), a)
  {
    if e.NftMoved? {
      NftTables(s, e.sid, e.recipient, e.probe);
      MasterFound(s, e.recipient, e.probe);
    } else if e.Staked? {
      StakeFrame(s, e.sid, e.owner, e.multisig, e.probe);
      MasterFound(s, e.owner, e.probe);
    } else if e.MultisigCreated? {
      MultisigFrame(s, e.sid, e.multisig);
    } else if e.InstanceRegistered? {
      assert RegisterInstance(s, e.sid, e.operator).masters == s.masters;
    } else if e.ProxyCreated? {
      assert CreateProxy(s, e.proxy, e.accepted).masters == s.masters;
    }
  }

  lemma AddStep(s: State, e: Event, a: Address, y: Address)
    requires e.OwnerAdded? && a in s.masters
    ensures var s' := AddOwner(s, e.safe, e.owner);
            a in s'.masters && OwnersStep(s.masters[a], s'.masters[a], e, a, y)
  {
    AddedOwner(s, e.safe, e.owner);
  }

  lemma RemoveStep(s: State, e: Event, a: Address, y: Address)
    requires e.OwnerRemoved? && a in s.masters
    ensures var s' := RemoveOwner(s, e.safe, e.owner);
            a in s'.masters && OwnersStep(s.masters[a], s'.masters[a], e, a, y)
  {
    RemovedOwner(s, e.safe, e.owner);
    WithoutHas(s.masters[a].owners, e.owner, y);
  }

  lemma SameOwnersStep(s: State, s': State, e: Event, a: Address, y: Address)
    requires !e.OwnerAdded? && !e.OwnerRemoved? && a in s.masters && SameOwners(s, s', a)
    ensures OwnersStep(s.masters[a], s'.masters[a], e, a, y)
  {
  }

  lemma StepOwners(cfg: Config, s: State, e: Event, a: Address, y: Address)
    requires WellFormed(e) && a in s.masters
    ensures a in Step(cfg, s, e).masters && OwnersStep(s.masters[a], Step(cfg, s, e).masters[a], e, a, y)
  {
    if e.OwnerAdded? {
      AddStep(s, e, a, y);
    } else if e.OwnerRemoved? {
      RemoveStep(s, e, a, y);
    } else {
      if IsDiscovery(e) {
        DiscoveryKeepsOwners(s, e, a);
      } else {
        FundsKeepOwners(cfg, s, e, a);
      }
      SameOwnersStep(s, Step(cfg, s, e), e, a, y);
    }
  }

  /** Each event of a run moves the owners and the EOA of a stored Master Safe as its owner events say. */
  lemma OwnersMove(cfg: Config, es: Trace, k: nat, a: Address, y: Address)
    requires k < |es| && a in Run(cfg, es[..k]).masters
    ensures a in Run(cfg, es[..k + 1]).masters
    ensures OwnersStep(Run(cfg, es[..k]).masters[a], Run(cfg, es[..k + 1]).masters[a], es[k], a, y)
  {
    RunNext(cfg, es, k);
    StepOwners(cfg, Run(cfg, es[..k]), es[k], a, y);
  }

  ghost predicate TouchedSince(es: Trace, first: nat, a: Address, y: Address) {
    exists j :: first <= j < |es| && (Adds(es[j], a, y) || Removes(es[j], a, y))
  }

  lemma TouchedSincePrefix(es: Trace, first: nat, a: Address, y: Address)
    requires first < |es| && !TouchedSince(es, first, a, y)
    ensures var e := es[|es| - 1];
            !TouchedSince(es[..|es| - 1], first, a, y) && !Adds(e, a, y) && !Removes(e, a, y)
  {
    assert forall j :: 0 <= j < |es| - 1 ==> es[..|es| - 1][j] == es[j];
  }

  lemma {:induction false} OwnerStays(cfg: Config, es: Trace, k: nat, a: Address, y: Address)
    requires k <= |es| && a in Run(cfg, es[..k]).masters && !TouchedSince(es, k, a, y)
    ensures a in Run(cfg, es).masters
    ensures y in Run(cfg, es).masters[a].owners <==> y in Run(cfg, es[..k]).masters[a].owners
    decreases |es|
  {
    if k == |es| {
      assert es[..k] == es;
    } else {
      var init := es[..|es| - 1];
      assert init[..k] == es[..k];
      TouchedSincePrefix(es, k, a, y);
      OwnerStays(cfg, init, k, a, y);
      StepOwners(cfg, Run(cfg, init), es[|es| - 1], a, y);
    }
  }

  /** An address owns a Master Safe when its last owner event added it ... */
  lemma OwnerOfLastTouch(cfg: Config, es: Trace, i: nat, a: Address, y: Address)
    requires i < |es| && (Adds(es[i], a, y) || Removes(es[i], a, y)) && !TouchedSince(es, i + 1, a, y)
    requires a in Run(cfg, es[..i]).masters
    ensures a in Run(cfg, es).masters && (y in Run(cfg, es).masters[a].owners <==> es[i].OwnerAdded?)
  {
    OwnersMove(cfg, es, i, a, y);
    OwnerStays(cfg, es, i + 1, a, y);
  }

  /** ... and, with no owner event since it was stored, when the answer that stored it named it. */
  lemma OwnerOfProbe(cfg: Config, es: Trace, i: nat, a: Address, y: Address)
    requires i < |es| && FindsMaster(Run(cfg, es[..i]), es[i], a) && !TouchedSince(es, i + 1, a, y)
    ensures a in Run(cfg, es).masters && (y in Run(cfg, es).masters[a].owners <==> y in es[i].probe.value)
  {
    RunNext(cfg, es, i);
    StepTables(cfg, Run(cfg, es[..i]), es[i], a);
    OwnerStays(cfg, es, i + 1, a, y);
  }
}
