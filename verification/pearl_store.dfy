/** The Pearl event handlers over the entity tables, each proved against its state function. */
module PearlStore {
  import opened Collections
  import opened PearlIds
  import opened PearlState

  /** The dedupe loops over operators and owners. */
  method AppendOnce(list: seq<Address>, x: Address) returns (r: seq<Address>)
    ensures r == AddOnce(list, x)
  {
    var seen := false;
    for i := 0 to |list|
      invariant !seen && x !in list[..i]
    {
      if list[i] == x {
        seen := true;
        assert x in list;
        break;
      }
    }
    r := if seen then list else list + [x];
  }

  /** The merge loops of `drainPendingRegistration`. */
  method MergeLists(into: seq<Address>, from: seq<Address>) returns (r: seq<Address>)
    ensures r == Merge(into, from)
  {
    r := into;
    for i := 0 to |from|
      invariant r == Merge(into, from[..i])
    {
      assert from[..i + 1][..i] == from[..i];
      r := AppendOnce(r, from[i]);
    }
    assert from[..|from|] == from;
  }

  /** Discovery neither reads nor writes the Service table, so an early save of the service commutes with it. */
  lemma MasterCommutes(s: State, sid: nat, svc: Service, a: Address, probe: Option<seq<Address>>)
    ensures DiscoverMaster(SaveService(s, sid, svc), a, probe) == SaveService(DiscoverMaster(s, a, probe), sid, svc)
  {
  }

  lemma AgentCommutes(s: State, sid: nat, saved: Service, a: Address, svc: Service)
    ensures DiscoverAgent(SaveService(s, sid, saved), a, sid, svc)
        == SaveService(DiscoverAgent(s, a, sid, svc), sid, saved)
  {
  }

  lemma LastSaveWins(s: State, sid: nat, first: Service, last: Service)
    ensures SaveService(SaveService(s, sid, first), sid, last) == SaveService(s, sid, last)
  {
    assert s.services[sid := first][sid := last] == s.services[sid := last];
  }

  /** The Service table after the first `n` evicted slots. */
  ghost function EvictedServices(s: State, sids: seq<nat>, n: nat): map<nat, Service>
    requires n <= |sids|
  {
    (map sid | sid in sids[..n] :: NEW_SERVICE) + s.services
  }

  lemma EvictedServicesStep(s: State, sids: seq<nat>, n: nat)
    requires n < |sids|
    ensures var t := s.(services := EvictedServices(s, sids, n));
            && ServiceOf(t, sids[n]) == ServiceOf(s, sids[n])
            && t.services[sids[n] := ServiceOf(s, sids[n])] == EvictedServices(s, sids, n + 1)
  {
    assert sids[..n + 1] == sids[..n] + [sids[n]];
  }

  ghost function EvictedPrefix(s: State, h: Header, proxy: Address, sids: seq<nat>, owners: seq<Address>,
                               multisigs: seq<Address>, n: nat): seq<Row>
    requires n <= |sids| && Fits(|sids|)
  {
    seq(n, i requires 0 <= i < n => EvictedRowAt(s, h, proxy, sids, owners, multisigs, i))
  }

  /** The state after the first `n` evicted slots. */
  ghost function EvictedState(s: State, h: Header, proxy: Address, sids: seq<nat>, owners: seq<Address>,
                              multisigs: seq<Address>, n: nat): State
    requires n <= |sids| && Fits(|sids|)
  {
    s.(rows := s.rows + EvictedPrefix(s, h, proxy, sids, owners, multisigs, n), services := EvictedServices(s, sids, n))
  }

  lemma EvictedStateEnds(s: State, h: Header, proxy: Address, sids: seq<nat>, owners: seq<Address>,
                         multisigs: seq<Address>)
    requires Fits(|sids|)
    ensures EvictedState(s, h, proxy, sids, owners, multisigs, 0) == s
    ensures EvictedState(s, h, proxy, sids, owners, multisigs, |sids|) == Evict(s, h, proxy, sids, owners, multisigs)
  {
    assert sids[..|sids|] == sids;
    assert EvictedServices(s, sids, 0) == s.services;
    assert s.rows + EvictedPrefix(s, h, proxy, sids, owners, multisigs, 0) == s.rows;
    assert EvictedPrefix(s, h, proxy, sids, owners, multisigs, |sids|)
        == seq(|sids|, i requires 0 <= i < |sids| => EvictedRowAt(s, h, proxy, sids, owners, multisigs, i));
  }

  lemma EvictedPrefixStep(s: State, h: Header, proxy: Address, sids: seq<nat>, owners: seq<Address>,
                          multisigs: seq<Address>, n: nat)
    requires n < |sids| && Fits(|sids|)
    ensures EvictedPrefix(s, h, proxy, sids, owners, multisigs, n + 1)
         == EvictedPrefix(s, h, proxy, sids, owners, multisigs, n)
             + [EvictedRowAt(s, h, proxy, sids, owners, multisigs, n)]
  {
  }

  /** Which categories the handler credits ... */
  predicate CreditedCategory(category: Category) {
    category in {SafeSetupTransfer, MasterFundingIn, AgentToMaster, AppToAgent, StakingRewardClaim, MasterToAgent}
  }

  /** ... and which it debits, besides the sender of a Master Safe to Master Safe transfer. */
  predicate DebitedCategory(category: Category) {
    category in {MasterWithdrawal, MasterToAgent, AgentToApp, AgentToMaster}
  }

  lemma CreditsByCategory(cfg: Config, s: State, from: Address, to: Address)
    requires Classify(cfg, s, from, to).Some?
    ensures CreditedCategory(Classify(cfg, s, from, to).value.category) <==> Credits(cfg, s.tracked, from, to)
  {
  }

  lemma DebitsByCategory(cfg: Config, s: State, from: Address, to: Address)
    requires Classify(cfg, s, from, to).Some?
    ensures var c := Classify(cfg, s, from, to).value;
            && (DebitedCategory(c.category) || c.sender.Some? <==> Debits(cfg, s.tracked, from, to))
            && (c.sender.Some? ==> c.category == MasterFundingIn) && c.category != AgentOlasToMaster
            && (c.category == MasterToAgent ==> from != to)
  {
  }

  class Store {
    const cfg: Config
    var tracked: map<Address, Tracked>
    var masters: map<Address, MasterSafe>
    var agents: map<Address, AgentSafe>
    var services: map<nat, Service>
    var pending: map<nat, seq<Address>>
    var staking: set<Address>
    var spawned: seq<Address>
    var balances: map<(Address, Address), int>
    var rows: seq<Row>
    var funding: map<FundingKey, FundingEvent>
    var daily: map<(nat, nat), Daily>

    ghost function Abs(): State
      reads this
    {
      State(tracked, masters, agents, services, pending, staking, spawned, balances, rows, funding, daily)
    }

    constructor (cfg: Config)
      ensures this.cfg == cfg && Abs() == EMPTY_STATE
    {
      this.cfg := cfg;
      tracked, masters, agents, services, pending := map[], map[], map[], map[], map[];
      staking, spawned, balances, rows, funding, daily := {}, [], map[], [], map[], map[];
    }

    // ----- discovery -------------------------------------------------------

    method UpsertTrackedAddress(a: Address, v: Tracked)
      modifies this`tracked
      ensures tracked == Upsert(old(tracked), a, v)
    {
      if a in tracked {
        return;
      }
      tracked := tracked[a := v];
    }

    /** `getOrCreateMasterSafe`; `found` is false where the source returns null. */
    method GetOrCreateMasterSafe(a: Address, probe: Option<seq<Address>>) returns (found: bool)
      modifies this
      ensures Abs() == DiscoverMaster(old(Abs()), a, probe)
      ensures found <==> a in masters
    {
      if a in masters {
        return true;
      }
      if probe.None? || |probe.value| == 0 {
        return false;
      }
      var owners := probe.value;
      var masterSafe := MasterSafe(owners[0], owners, false);
      masters := masters[a := masterSafe];
      rows := rows + [DeployedRow(a)];
      UpsertTrackedAddress(a, Tracked(Master, Some(a), None));
      if masterSafe.masterEoa != ZERO_ADDRESS {
        UpsertTrackedAddress(masterSafe.masterEoa, Tracked(MasterEoa, Some(a), None));
      }
      if a !in agents {
        spawned := spawned + [a];
      }
      found := true;
    }

    /** The operator loop of `getOrCreateAgentSafe`. */
    method TrackOperators(operators: seq<Address>, skip: Address, v: Tracked)
      modifies this`tracked
      ensures tracked == UpsertOperators(old(tracked), operators, skip, v)
    {
      for i := 0 to |operators|
        invariant tracked == UpsertOperators(old(tracked), operators[..i], skip, v)
      {
        assert operators[..i + 1][..i] == operators[..i];
        if operators[i] != skip {
          UpsertTrackedAddress(operators[i], v);
        }
      }
      assert operators[..|operators|] == operators;
    }

    method GetOrCreateAgentSafe(a: Address, sid: nat, svc: Service)
      modifies this
      ensures Abs() == DiscoverAgent(old(Abs()), a, sid, svc)
    {
      if a in agents {
        return;
      }
      agents := agents[a := AgentSafe(sid, svc.masterSafe)];
      if svc.masterSafe.Some? {
        UpsertTrackedAddress(a, Tracked(Agent, svc.masterSafe, Some(sid)));
      }
      if a !in masters {
        spawned := spawned + [a];
      }
      if svc.masterSafe.Some? {
        TrackOperators(svc.operators, svc.masterSafe.value, Tracked(AgentEoa, svc.masterSafe, Some(sid)));
      }
    }

    method GetOrCreateService(sid: nat) returns (svc: Service)
      modifies this`services
      ensures svc == ServiceOf(old(Abs()), sid)
      ensures Abs() == SaveService(old(Abs()), sid, svc)
    {
      svc := if sid in services then services[sid] else NEW_SERVICE;
      services := services[sid := svc];
    }

    method SaveServiceEntity(sid: nat, svc: Service)
      modifies this`services
      ensures Abs() == SaveService(old(Abs()), sid, svc)
    {
      services := services[sid := svc];
    }

    method HandleRegisterInstance(sid: nat, operator: Address)
      modifies this
      ensures Abs() == RegisterInstance(old(Abs()), sid, operator)
    {
      if sid in services {
        var service := services[sid];
        var operators := AppendOnce(service.operators, operator);
        services := services[sid := service.(operators := operators)];
      } else {
        var operators := AppendOnce(if sid in pending then pending[sid] else [], operator);
        pending := pending[sid := operators];
      }
    }

    method HandleCreateMultisigWithAgents(sid: nat, multisig: Address)
      modifies this
      ensures Abs() == CreateMultisig(old(Abs()), sid, multisig)
    {
      ghost var s := Abs();
      var service := GetOrCreateService(sid);
      ghost var created := service;
      var operators := MergeLists(service.operators, if sid in pending then pending[sid] else []);
      service := service.(operators := operators);
      AgentCommutes(s, sid, created, multisig, service);
      GetOrCreateAgentSafe(multisig, sid, service);
      LastSaveWins(DiscoverAgent(s, multisig, sid, service), sid, created, service.(agentSafe := Some(multisig)));
      SaveServiceEntity(sid, service.(agentSafe := Some(multisig)));
    }

    method HandleServiceNftTransfer(sid: nat, recipient: Address, probe: Option<seq<Address>>)
      modifies this
      ensures Abs() == MoveNft(old(Abs()), sid, recipient, probe)
    {
      ghost var s := Abs();
      var service := GetOrCreateService(sid);
      if recipient == ZERO_ADDRESS || recipient in staking {
        return;
      }
      MasterCommutes(s, sid, service, recipient, probe);
      var found := GetOrCreateMasterSafe(recipient, probe);
      if found {
        LastSaveWins(DiscoverMaster(s, recipient, probe), sid, service, service.(masterSafe := Some(recipient)));
        SaveServiceEntity(sid, service.(masterSafe := Some(recipient)));
      }
    }

    method HandleServiceStaked(sid: nat, owner: Address, multisig: Address, probe: Option<seq<Address>>)
      modifies this
      ensures Abs() == Stake(old(Abs()), sid, owner, multisig, probe)
    {
      ghost var s := Abs();
      ghost var d := DiscoverMaster(s, owner, probe);
      var service := GetOrCreateService(sid);
      ghost var created := service;
      MasterCommutes(s, sid, service, owner, probe);
      var found := GetOrCreateMasterSafe(owner, probe);
      assert Abs() == SaveService(d, sid, created);
      assert found <==> owner in d.masters;
      if found {
        service := service.(masterSafe := Some(owner));
      }
      AgentCommutes(d, sid, created, multisig, service);
      GetOrCreateAgentSafe(multisig, sid, service);
      LastSaveWins(DiscoverAgent(d, multisig, sid, service), sid, created, service.(agentSafe := Some(multisig)));
      SaveServiceEntity(sid, service.(agentSafe := Some(multisig)));
    }

    method HandleTerminateService(sid: nat)
      modifies this
      ensures Abs() == SaveService(old(Abs()), sid, ServiceOf(old(Abs()), sid))
    {
      var service := GetOrCreateService(sid);
    }

    method HandleInstanceCreated(proxy: Address, accepted: bool)
      modifies this
      ensures Abs() == CreateProxy(old(Abs()), proxy, accepted)
    {
      if !accepted {
        return;
      }
      staking := staking + {proxy};
      UpsertTrackedAddress(proxy, Tracked(Staking, None, None));
    }

    method HandleSafeAddedOwner(safe: Address, owner: Address)
      modifies this
      ensures Abs() == AddOwner(old(Abs()), safe, owner)
    {
      if safe !in masters {
        return;
      }
      var owners := AppendOnce(masters[safe].owners, owner);
      masters := masters[safe := masters[safe].(owners := owners)];
    }

    method HandleSafeRemovedOwner(safe: Address, owner: Address)
      modifies this
      ensures Abs() == RemoveOwner(old(Abs()), safe, owner)
    {
      if safe !in masters {
        return;
      }
      var masterSafe := masters[safe];
      var filtered := [];
      for i := 0 to |masterSafe.owners|
        invariant filtered == Without(masterSafe.owners[..i], owner)
      {
        assert masterSafe.owners[..i + 1][..i] == masterSafe.owners[..i];
        if masterSafe.owners[i] != owner {
          filtered := filtered + [masterSafe.owners[i]];
        }
      }
      assert masterSafe.owners[..|masterSafe.owners|] == masterSafe.owners;
      masterSafe := masterSafe.(owners := filtered);
      if |filtered| > 0 && masterSafe.masterEoa == owner {
        masterSafe := masterSafe.(masterEoa := filtered[0]);
      }
      masters := masters[safe := masterSafe];
    }

    // ----- funds -----------------------------------------------------------

    method UpsertTokenBalance(safe: Address, token: Address, delta: int)
      modifies this`balances
      ensures balances == Bump(old(balances), safe, token, delta)
    {
      if (safe, token) !in balances {
        balances := balances[(safe, token) := delta];
      } else {
        balances := balances[(safe, token) := balances[(safe, token)] + delta];
      }
    }

    method MarkSetupTransferSeen(safe: Address)
      modifies this`masters
      ensures masters == MarkSetupSeen(old(masters), safe)
    {
      if safe !in masters || masters[safe].setupSeen {
        return;
      }
      masters := masters[safe := masters[safe].(setupSeen := true)];
    }

    /** `getOrCreateAgentFundingEvent` and the bump or save that follows it. */
    method AddToFundingEvent(key: FundingKey, token: Option<Address>, amount: nat)
      modifies this`funding
      ensures funding == old(funding)[key := AddFunding(cfg, FundingOf(old(funding), key), token, amount)]
    {
      var afe := if key in funding then funding[key] else FundingEvent(0, 0);
      if token.None? {
        afe := afe.(native := afe.native + amount);
      } else if token.value == cfg.olas {
        afe := afe.(olas := afe.olas + amount);
      }
      funding := funding[key := afe];
    }

    /** The part `handleErc20Transfer` and `handleSafeReceived` share: row, setup flag and funding group. */
    method BookRow(h: Header, classification: Classification, token: Option<Address>, from: Address, to: Address,
                   amount: nat)
      modifies this`rows, this`masters, this`funding
      ensures Abs() == Book(cfg, old(Abs()), h, classification, token, from, to, amount)
    {
      var category := classification.category;
      if category == AgentToMaster && token == Some(cfg.olas) {
        category := AgentOlasToMaster;
      }
      var row :=
        Row(EventRow(h.tx, h.logIndex), category, RawTransfer, classification.service, classification.masterSafe,
                     classification.agentSafe, token, amount, from, to, None);
      if category == SafeSetupTransfer && classification.masterSafe.Some? {
        MarkSetupTransferSeen(classification.masterSafe.value);
      }
      if category == MasterToAgent && classification.masterSafe.Some? && classification.service.Some? {
        var key := FundingKey(h.tx, classification.masterSafe.value, classification.service.value);
        row := row.(funding := Some(key));
        AddToFundingEvent(key, token, amount);
      }
      rows := rows + [row];
    }

    /** The balance updates of `handleErc20Transfer`, chosen by category: they come to the role-pair rule. */
    method UpdateBalances(classification: Classification, token: Address, from: Address, to: Address, amount: nat)
      requires Classify(cfg, Abs(), from, to) == Some(classification)
      modifies this`balances
      ensures balances == TransferBalances(cfg, old(Abs()), token, from, to, amount)
    {
      CreditsByCategory(cfg, Abs(), from, to);
      DebitsByCategory(cfg, Abs(), from, to);
      var category := classification.category;
      if category == AgentToMaster && token == cfg.olas {
        category := AgentOlasToMaster;
      }
      if category in {SafeSetupTransfer, MasterFundingIn, AgentToMaster, AgentOlasToMaster, AppToAgent,
                      StakingRewardClaim} {
        UpsertTokenBalance(to, token, amount);
      }
      if category in {MasterWithdrawal, MasterToAgent, AgentToApp, AgentToMaster, AgentOlasToMaster} {
        UpsertTokenBalance(from, token, 0 - amount);
      }
      if category == MasterToAgent {
        UpsertTokenBalance(to, token, amount);
        assert (from, token) != (to, token);
      }
      if classification.sender.Some? {
        UpsertTokenBalance(from, token, 0 - amount);
      }
    }

    method HandleErc20Transfer(h: Header, token: Address, from: Address, to: Address, amount: nat)
      modifies this
      ensures Abs() == TransferErc20(cfg, old(Abs()), h, token, from, to, amount)
    {
      var classification := Classify(cfg, Snapshot(), from, to);
      if classification.None? {
        return;
      }
      UpdateBalances(classification.value, token, from, to, amount);
      BookRow(h, classification.value, Some(token), from, to, amount);
    }

    function Snapshot(): (s: State)
      reads this
      ensures s == Abs()
    {
      State(tracked, masters, agents, services, pending, staking, spawned, balances, rows, funding, daily)
    }

    method HandleSafeReceived(h: Header, safe: Address, sender: Address, amount: nat)
      modifies this
      ensures Abs() == ReceiveNative(cfg, old(Abs()), h, safe, sender, amount)
    {
      var classification := Classify(cfg, Snapshot(), sender, safe);
      if classification.None? {
        return;
      }
      BookRow(h, classification.value, None, sender, safe, amount);
    }

    /** The balance half of `handleTokenDeposit` and `handleTokenRefund`. */
    method BookBond(account: Address, token: Address, delta: int)
      modifies this
      ensures Abs() == MoveBond(old(Abs()), account, token, delta)
    {
      if account in tracked && tracked[account].role == Master {
        UpsertTokenBalance(account, token, delta);
      }
    }

    // ----- staking rewards -------------------------------------------------

    method AddDailyOlasReward(sid: nat, service: Service, amount: nat, time: nat) returns (updated: Service)
      modifies this`daily
      ensures updated == service.(totalClaimed := service.totalClaimed + amount)
      ensures var k := (sid, DayStart(time));
              daily == old(daily)[k := Daily((if k in old(daily) then old(daily)[k].claimed else 0)
                  + amount, updated.totalClaimed)]
    {
      var k := (sid, DayStart(time));
      var bucket := if k in daily then daily[k] else Daily(0, service.totalClaimed);
      bucket := bucket.(claimed := bucket.claimed + amount);
      bucket := bucket.(cumulative := service.totalClaimed + amount);
      daily := daily[k := bucket];
      updated := service.(totalClaimed := service.totalClaimed + amount);
    }

    /** A daily reward and the save of the service that follows it. */
    method BookReward(sid: nat, service: Service, reward: nat, time: nat)
      requires service == ServiceOf(Abs(), sid)
      modifies this`daily, this`services
      ensures Abs() == AddReward(old(Abs()), sid, reward, time)
    {
      var updated := AddDailyOlasReward(sid, service, reward, time);
      services := services[sid := updated];
    }

    method AppendStakingRow(h: Header, category: Category, sid: nat, service: Service, owner: Address,
                            multisig: Address,
                            reward: nat, proxy: Address)
      modifies this`rows
      ensures rows == old(rows) + [StakingRow(EventRow(h.tx, h.logIndex), category, sid, service, owner, multisig,
                                              Some(cfg.olas), reward, proxy)]
    {
      rows := rows + [StakingRow(EventRow(h.tx, h.logIndex), category, sid, service, owner, multisig, Some(cfg.olas),
                                 reward, proxy)];
    }

    method HandleRewardClaimed(h: Header, proxy: Address, sid: nat, owner: Address, multisig: Address, reward: nat)
      modifies this
      ensures Abs() == ClaimReward(cfg, old(Abs()), h, proxy, sid, owner, multisig, reward)
    {
      var service := GetOrCreateService(sid);
      AppendStakingRow(h, StakingRewardClaim, sid, service, owner, multisig, reward, proxy);
      BookReward(sid, service, reward, h.time);
      assert services == old(services)[sid := services[sid]];
    }

    method HandleAnyUnstake(h: Header, proxy: Address, sid: nat, owner: Address, multisig: Address, reward: nat)
      modifies this
      ensures Abs() == Unstake(cfg, old(Abs()), h, proxy, sid, owner, multisig, reward)
    {
      var service := GetOrCreateService(sid);
      AppendStakingRow(h, UnstakeReward, sid, service, owner, multisig, reward, proxy);
      if reward > 0 {
        BookReward(sid, service, reward, h.time);
      } else {
        services := services[sid := service];
      }
    }

    /** One turn of the `handleServicesEvicted` loop; `s` is the state the handler started from. */
    method EvictSlot(ghost s: State, h: Header, proxy: Address, sids: seq<nat>, owners: seq<Address>,
                     multisigs: seq<Address>, i: nat)
      requires i < |sids| && Fits(|sids|)
      requires Abs() == EvictedState(s, h, proxy, sids, owners, multisigs, i)
      modifies this
      ensures Abs() == EvictedState(s, h, proxy, sids, owners, multisigs, i + 1)
    {
      EvictedServicesStep(s, sids, i);
      EvictedPrefixStep(s, h, proxy, sids, owners, multisigs, i);
      assert ServiceOf(Abs(), sids[i]) == ServiceOf(s, sids[i]);
      var service := GetOrCreateService(sids[i]);
      var owner := if i < |owners| then owners[i] else ZERO_ADDRESS;
      var multisig := if i < |multisigs| then multisigs[i] else ZERO_ADDRESS;
      var row :=
        StakingRow(EvictedRow(h.tx, h.logIndex, i), ServiceEvicted, sids[i], service, owner, multisig, None, 0, proxy);
      assert row == EvictedRowAt(s, h, proxy, sids, owners, multisigs, i);
      rows := rows + [row];
      assert rows == s.rows + EvictedPrefix(s, h, proxy, sids, owners, multisigs, i + 1);
    }

    method HandleServicesEvicted(h: Header, proxy: Address, sids: seq<nat>, owners: seq<Address>,
                                 multisigs: seq<Address>)
      requires Fits(|sids|)
      modifies this
      ensures Abs() == Evict(old(Abs()), h, proxy, sids, owners, multisigs)
    {
      ghost var s := Abs();
      EvictedStateEnds(s, h, proxy, sids, owners, multisigs);
      for i := 0 to |sids|
        invariant Abs() == EvictedState(s, h, proxy, sids, owners, multisigs, i)
      {
        EvictSlot(s, h, proxy, sids, owners, multisigs, i);
      }
    }
  }
}
