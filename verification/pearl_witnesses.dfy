/** Short runs on which a natural claim about the Pearl tables fails. */
module PearlWitnesses {
  import opened Collections
  import opened PearlIds
  import opened PearlState
  import opened PearlInvariants
  import opened PearlLedger

  lemma RunAppend(cfg: Config, es: Trace, e: Event)
    requires WellFormed(e)
    ensures Run(cfg, es + [e]) == Step(cfg, Run(cfg, es), e)
  {
    assert (es + [e])[..|es|] == es;
  }

  lemma RunTwo(cfg: Config, e: Event, f: Event)
    requires WellFormed(e) && WellFormed(f)
    ensures Run(cfg, [e, f]) == Step(cfg, Step(cfg, EMPTY_STATE, e), f)
  {
    RunAppend(cfg, [], e);
    RunAppend(cfg, [e], f);
    assert [] + [e] == [e] && [e] + [f] == [e, f];
  }

  lemma RunFour(cfg: Config, e: Event, f: Event, g: Event, h: Event)
    requires WellFormed(e) && WellFormed(f) && WellFormed(g) && WellFormed(h)
    ensures Run(cfg, [e, f, g, h]) == Step(cfg, Step(cfg, Run(cfg, [e, f]), g), h)
  {
    RunAppend(cfg, [e, f], g);
    RunAppend(cfg, [e, f, g], h);
    assert [e, f] + [g] == [e, f, g] && [e, f, g] + [h] == [e, f, g, h];
  }

  // ----- Agent Safes that are not tracked ----------------------------------

  /** A multisig created before its service has a Master Safe: linked later, the Agent Safe stays untracked. */
  lemma LateMasterWitness(cfg: Config, h: Header, sid: nat, agent: Address, master: Address, eoa: Address)
    requires master != ZERO_ADDRESS && agent != master && agent != eoa
    ensures var s := Run(cfg, [MultisigCreated(h, sid, agent), NftMoved(h, sid, master, Some([eoa]))]);
            agent in s.agents && s.services[sid].masterSafe == Some(master) && agent !in s.tracked
  {
    var e, f := MultisigCreated(h, sid, agent), NftMoved(h, sid, master, Some([eoa]));
    RunTwo(cfg, e, f);
    var s1 := CreateMultisig(EMPTY_STATE, sid, agent);
    assert Step(cfg, EMPTY_STATE, e) == s1;
    assert agent in s1.agents && s1.tracked == map[] && s1.masters == map[] && s1.staking == {};
    assert Step(cfg, s1, f) == MoveNft(s1, sid, master, Some([eoa]));
  }

  lemma FirstMaster(s: State, safe: Address, eoa: Address)
    requires s == MoveNft(EMPTY_STATE, 1, safe, Some([eoa])) && safe != ZERO_ADDRESS
    ensures s.agents == map[] && Has(s.tracked, safe, Master) && s.masters.Keys == {safe}
  {
  }

  /** A Master Safe that becomes another service's multisig: an Agent Safe of a linked service, tracked as MASTER. */
  lemma MasterAsAgentWitness(cfg: Config, h: Header, safe: Address, eoa: Address, owner: Address, ownerEoa: Address)
    requires safe != ZERO_ADDRESS && safe != owner
    ensures var s := Run(cfg, [NftMoved(h, 1, safe, Some([eoa])), Staked(h, 2, owner, safe, Some([ownerEoa]))]);
            safe in s.agents && s.agents[safe].masterSafe == Some(owner) && Has(s.tracked, safe, Master)
  {
    var e, f := NftMoved(h, 1, safe, Some([eoa])), Staked(h, 2, owner, safe, Some([ownerEoa]));
    RunTwo(cfg, e, f);
    var s1 := MoveNft(EMPTY_STATE, 1, safe, Some([eoa]));
    assert Step(cfg, EMPTY_STATE, e) == s1;
    FirstMaster(s1, safe, eoa);
    assert Step(cfg, s1, f) == Stake(s1, 2, owner, safe, Some([ownerEoa]));
    SecondMasterStakes(s1, safe, owner, ownerEoa);
  }

  lemma SecondMasterStakes(s: State, safe: Address, owner: Address, ownerEoa: Address)
    requires s.agents == map[] && Has(s.tracked, safe, Master) && s.masters.Keys == {safe} && safe != owner
    ensures var s' := Stake(s, 2, owner, safe, Some([ownerEoa]));
            safe in s'.agents && s'.agents[safe].masterSafe == Some(owner) && Has(s'.tracked, safe, Master)
  {
    var d, svc := DiscoverMaster(s, owner, Some([ownerEoa])), StakedService(s, 2, owner, Some([ownerEoa]));
    StakeIsDiscovery(s, 2, owner, safe, Some([ownerEoa]));
    DiscoverMasterExtends(s, owner, Some([ownerEoa]));
    DiscoverAgentExtends(d, safe, 2, svc);
    assert owner in d.masters && svc.masterSafe == Some(owner);
  }

  /** A service of `master` with one operator and no multisig yet. */
  lemma OperatorRegistered(cfg: Config, h: Header, master: Address, eoa: Address, operator: Address) returns (s: State)
    requires master != ZERO_ADDRESS && master != operator && eoa != operator
    ensures s == Run(cfg, [NftMoved(h, 1, master, Some([eoa])), InstanceRegistered(h, 1, operator)])
    ensures s.agents == map[] && master in s.masters && operator !in s.tracked && 2 !in s.services
    ensures 1 in s.services && s.services[1].operators == [operator] && s.services[1].masterSafe == Some(master)
  {
    var e, f := NftMoved(h, 1, master, Some([eoa])), InstanceRegistered(h, 1, operator);
    RunTwo(cfg, e, f);
    var s1 := MoveNft(EMPTY_STATE, 1, master, Some([eoa]));
    assert Step(cfg, EMPTY_STATE, e) == s1;
    s := RegisterInstance(s1, 1, operator);
  }

  /** Staking a service of a known Master Safe with a new multisig. */
  lemma StakeOfKnownMaster(s: State, sid: nat, master: Address, multisig: Address, probe: Option<seq<Address>>)
    requires master in s.masters && multisig !in s.agents
    ensures var s', svc := Stake(s, sid, master, multisig, probe), ServiceOf(s, sid).(masterSafe := Some(master));
            && s'.agents == s.agents[multisig := AgentSafe(sid, Some(master))] && s'.masters == s.masters
            && s'.tracked == TrackAgent(s.tracked, multisig, sid, svc) && s'.balances == s.balances
            && s'.services == s.services[sid := svc.(agentSafe := Some(multisig))]
  {
    assert DiscoverMaster(s, master, probe) == s;
  }

  /** An operator of one service that becomes the multisig of another: tracked as AGENT_EOA, never as AGENT. */
  lemma OperatorAsAgentWitness(cfg: Config, h: Header, master: Address, eoa: Address, operator: Address,
                               multisig: Address)
    requires master != ZERO_ADDRESS && master != operator && eoa != operator && multisig != operator
    ensures var es := [NftMoved(h, 1, master, Some([eoa])), InstanceRegistered(h, 1, operator),
                       Staked(h, 1, master, multisig, None), Staked(h, 2, master, operator, None)];
            var s := Run(cfg, es);
            operator in s.agents && s.agents[operator].masterSafe == Some(master) && Has(s.tracked, operator, AgentEoa)
  {
    var e, f := NftMoved(h, 1, master, Some([eoa])), InstanceRegistered(h, 1, operator);
    RunFour(cfg, e, f, Staked(h, 1, master, multisig, None), Staked(h, 2, master, operator, None));
    var s := OperatorRegistered(cfg, h, master, eoa, operator);
    StakeOfKnownMaster(s, 1, master, multisig, None);
    var s' := Stake(s, 1, master, multisig, None);
    assert Has(s'.tracked, operator, AgentEoa);
    StakeOfKnownMaster(s', 2, master, operator, None);
  }

  // ----- a transfer between Agent Safes ------------------------------------

  /** One Agent Safe of a Master Safe, discovered by one staking event. */
  lemma FirstAgent(cfg: Config, h: Header, master: Address, eoa: Address, a: Address)
    requires master != a && eoa != a
    ensures var s := Step(cfg, EMPTY_STATE, Staked(h, 1, master, a, Some([eoa])));
            && Has(s.tracked, a, Agent) && s.tracked.Keys <= {master, eoa, a} && s.balances == map[]
            && master in s.masters && s.agents.Keys == {a} && 2 !in s.services
  {
    var d := DiscoverMaster(EMPTY_STATE, master, Some([eoa]));
    var s := Stake(EMPTY_STATE, 1, master, a, Some([eoa]));
    assert Step(cfg, EMPTY_STATE, Staked(h, 1, master, a, Some([eoa]))) == s;
    assert s.tracked == TrackAgent(d.tracked, a, 1, NEW_SERVICE.(masterSafe := Some(master)));
  }

  /** ... and a second one. */
  lemma TwoAgents(cfg: Config, h: Header, master: Address, eoa: Address, a: Address, b: Address)
    requires master != a && master != b && a != b && eoa != a && eoa != b
    ensures var s := Run(cfg, [Staked(h, 1, master, a, Some([eoa])), Staked(h, 2, master, b, None)]);
            Has(s.tracked, a, Agent) && Has(s.tracked, b, Agent) && s.tracked.Keys <= {master, eoa, a, b}
                && s.balances == map[]
  {
    var e, f := Staked(h, 1, master, a, Some([eoa])), Staked(h, 2, master, b, None);
    var s := Step(cfg, EMPTY_STATE, e);
    RunTwo(cfg, e, f);
    FirstAgent(cfg, h, master, eoa, a);
    StakeOfKnownMaster(s, 2, master, b, None);
    assert Step(cfg, s, f) == Stake(s, 2, master, b, None);
    assert ServiceOf(s, 2) == NEW_SERVICE;
  }

  /** An Agent Safe passes on to another one what it received from a stranger. */
  lemma PassedOn(cfg: Config, s: State, g: Event, i: Event)
    requires g.Erc20Transfer? && i.Erc20Transfer? && g.token == i.token && g.amount == i.amount && g.to == i.from
    requires g.from !in s.tracked && Has(s.tracked, i.from, Agent) && Has(s.tracked, i.to, Agent) && i.from != i.to
    ensures var s' := Step(cfg, Step(cfg, s, g), i);
            && s'.tracked == s.tracked
            && BalanceOf(s'.balances, i.from, i.token) == BalanceOf(s.balances, i.from, i.token)
            && BalanceOf(s'.balances, i.to, i.token) == BalanceOf(s.balances, i.to, i.token)
  {
    var s' := Step(cfg, s, g);
    StepKeepsTracked(cfg, s, g);
    StepKeepsTracked(cfg, s', i);
    StepMoves(cfg, s, g, i.from, i.token);
    StepMoves(cfg, s, g, i.to, i.token);
    StepMoves(cfg, s', i, i.from, i.token);
    StepMoves(cfg, s', i, i.to, i.token);
  }

  /** ... at the end of any run. */
  lemma PassedOnBalances(cfg: Config, es: Trace, g: Event, i: Event)
    requires g.Erc20Transfer? && i.Erc20Transfer?
    requires g.token == i.token && g.amount == i.amount && g.to == i.from && i.from != i.to
    requires var t := Run(cfg, es).tracked; g.from !in t && Has(t, i.from, Agent) && Has(t, i.to, Agent)
    ensures var all := es + [g] + [i];
            && Has(Run(cfg, all).tracked, i.to, Agent)
            && Balance(cfg, all, i.from, i.token) == Balance(cfg, es, i.from, i.token)
            && Balance(cfg, all, i.to, i.token) == Balance(cfg, es, i.to, i.token)
  {
    RunAppend(cfg, es, g);
    RunAppend(cfg, es + [g], i);
    PassedOn(cfg, Run(cfg, es), g, i);
  }

  lemma PassedOnHoldings(e: Event, f: Event, g: Event, i: Event)
    requires WellFormed(e) && WellFormed(f) && !e.Erc20Transfer? && !f.Erc20Transfer?
    requires g.Erc20Transfer? && i.Erc20Transfer? && g.token == i.token && g.amount == i.amount
    requires g.to == i.from != i.to && g.from != i.from && g.from != i.to
    ensures Erc20([e, f, g, i], i.from, i.token) == 0 && Erc20([e, f, g, i], i.to, i.token) == i.amount
  {
    HoldingsOfFour(e, f, g, i, i.from, i.token);
    HoldingsOfFour(e, f, g, i, i.to, i.token);
  }

  /**
   An Agent Safe receives `amount` from outside and passes it on to another one: both balances end at 0, although
   the second one holds the amount.
   */
  lemma AgentToAgentWitness(cfg: Config, h: Header, token: Address, amount: nat, master: Address, eoa: Address,
                            a: Address, b: Address, app: Address)
    requires master != a && master != b && a != b && eoa != a && eoa != b && app !in {master, eoa, a, b}
    ensures var es := [Staked(h, 1, master, a, Some([eoa])), Staked(h, 2, master, b, None),
                       Erc20Transfer(h, token, app, a, amount), Erc20Transfer(h, token, a, b, amount)];
            && Has(Run(cfg, es).tracked, b, Agent) && Balance(cfg, es, a, token) == 0 && Balance(cfg, es, b, token) == 0
            && Erc20(es, a, token) == 0 && Erc20(es, b, token) == amount
  {
    TwoAgents(cfg, h, master, eoa, a, b);
    var e, f := Staked(h, 1, master, a, Some([eoa])), Staked(h, 2, master, b, None);
    var g, i := Erc20Transfer(h, token, app, a, amount), Erc20Transfer(h, token, a, b, amount);
    PassedOnBalances(cfg, [e, f], g, i);
    assert [e, f] + [g] + [i] == [e, f, g, i];
    PassedOnHoldings(e, f, g, i);
  }

  lemma StepKeepsTracked(cfg: Config, s: State, e: Event)
    requires e.Erc20Transfer?
    ensures Step(cfg, s, e).tracked == s.tracked
  {
    assert Step(cfg, s, e) == TransferErc20(cfg, s, e.h, e.token, e.from, e.to, e.amount);
  }

  lemma Erc20Append(es: Trace, e: Event, a: Address, token: Address)
    requires WellFormed(e)
    ensures Erc20(es + [e], a, token)
         == Erc20(es, a, token) + (if e.Erc20Transfer? && e.token == token && e.to == a then e.amount else 0)
          - (if e.Erc20Transfer? && e.token == token && e.from == a then e.amount else 0)
  {
    assert (es + [e])[..|es|] == es;
  }

  lemma HoldingsOfFour(e: Event, f: Event, g: Event, i: Event, a: Address, token: Address)
    requires !e.Erc20Transfer? && !f.Erc20Transfer? && g.Erc20Transfer? && i.Erc20Transfer? && WellFormed(e)
        && WellFormed(f)
    requires g.token == token && i.token == token
    ensures Erc20([e, f, g, i], a, token)
         == Signed(g.to == a, g.amount) - Signed(g.from == a, g.amount) + Signed(i.to == a, i.amount)
             - Signed(i.from == a, i.amount)
  {
    Erc20Append([], e, a, token);
    Erc20Append([e], f, a, token);
    Erc20Append([e, f], g, a, token);
    Erc20Append([e, f, g], i, a, token);
    assert [] + [e] == [e] && [e] + [f] == [e, f] && [e, f] + [g] == [e, f, g] && [e, f, g] + [i] == [e, f, g, i];
  }
}
