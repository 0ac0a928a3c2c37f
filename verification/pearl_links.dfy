/** What a raw FundsMovement row says of the two addresses it names, for as long as the table lasts. */
module PearlLinks {
  import opened Collections
  import opened PearlIds
  import opened PearlState
  import opened PearlFrames
  import opened PearlInvariants
  import PearlRows

  /** The links of a row lead to stored entities, and its Agent Safe belongs to its service. */
  ghost predicate LinksResolve(s: State, r: Row) {
    && (r.masterSafe.Some? ==> r.masterSafe.value in s.masters)
    && (r.agentSafe.Some? ==> r.agentSafe.value in s.agents && r.service == Some(s.agents[r.agentSafe.value].service))
    && (r.funding.Some? ==> r.funding.value in s.funding)
  }

  /** The row hangs on the Agent Safe `a`: its own service and Master Safe. */
  predicate OnAgent(t: map<Address, Tracked>, r: Row, a: Address) {
    Has(t, a, Agent) && r.agentSafe == Some(a) && r.service == t[a].service
  }

  predicate IsEoa(t: map<Address, Tracked>, a: Address) {
    Has(t, a, MasterEoa) || Has(t, a, AgentEoa)
  }

  /** A remaining row: registry dust to a Master Safe, an EOA's row under its Master Safe, or staking and SRTU noise. */
  predicate OtherFits(cfg: Config, t: map<Address, Tracked>, r: Row) {
    || (r.from == cfg.registry && Has(t, r.to, Master) && r.masterSafe == Some(r.to))
    || (IsEoa(t, r.from) && r.masterSafe == t[r.from].masterSafe)
    || (IsEoa(t, r.to) && r.masterSafe == t[r.to].masterSafe)
    || (r.masterSafe == None && (Has(t, r.from, Staking) || Has(t, r.to, Staking) || cfg.srtu in {r.from, r.to}))
  }

  /** What each category promises about the roles of sender and recipient. */
  ghost predicate Explained(cfg: Config, t: map<Address, Tracked>, r: Row) {
    && (r.funding.Some? <==> r.category == MasterToAgent)
    && match r.category
       case MasterToAgent =>
         && Has(t, r.from, Master) && r.masterSafe == Some(r.from)
         && (OnAgent(t, r, r.to) || (Has(t, r.to, AgentEoa) && r.agentSafe == None && r.service == t[r.to].service))
         && r.key.EventRow? && r.service.Some? && r.funding == Some(FundingKey(r.key.tx, r.from, r.service.value))
       case AgentToMaster => OnAgent(t, r, r.from) && Has(t, r.to, Master) && r.masterSafe == Some(r.to)
           && r.token != Some(cfg.olas)
       case AgentOlasToMaster => OnAgent(t, r, r.from) && Has(t, r.to, Master) && r.masterSafe == Some(r.to)
           && r.token == Some(cfg.olas)
       case StakingRewardClaim => Has(t, r.from, Staking) && OnAgent(t, r, r.to) && r.masterSafe == t[r.to].masterSafe
       case SafeSetupTransfer => Has(t, r.from, MasterEoa) && Has(t, r.to, Master) && r.masterSafe == Some(r.to)
           && r.service == None
       case MasterFundingIn => Has(t, r.to, Master) && r.masterSafe == Some(r.to) && r.service == None
       case MasterWithdrawal => Has(t, r.from, Master) && r.masterSafe == Some(r.from) && r.service == None
       case AgentToApp => OnAgent(t, r, r.from) && r.masterSafe == t[r.from].masterSafe
       case AppToAgent => OnAgent(t, r, r.to) && r.masterSafe == t[r.to].masterSafe
       case Other => r.service == None && r.agentSafe == None && OtherFits(cfg, t, r)
       case _ => false
  }

  ghost predicate RowOk(cfg: Config, s: State, r: Row) {
    r.source == RawTransfer ==> LinksResolve(s, r) && Explained(cfg, s.tracked, r)
  }

  lemma RowStays(cfg: Config, s: State, s': State, r: Row)
    requires RowOk(cfg, s, r) && Extends(s, s') && s.funding.Keys <= s'.funding.Keys
    ensures RowOk(cfg, s', r)
  {
  }

  lemma ClassifiedIsExplained(cfg: Config, s: State, h: Header, token: Option<Address>, from: Address, to: Address,
                              amount: nat)
    requires Linked(s) && Classify(cfg, s, from, to).Some?
    ensures Explained(cfg, s.tracked, TransferRow(cfg, h, Classify(cfg, s, from, to).value, token, from, to, amount))
  {
    assert from in s.tracked ==> LinkOk(s, from);
    assert to in s.tracked ==> LinkOk(s, to);
  }

  lemma ClassifiedResolves(cfg: Config, s: State, h: Header, token: Option<Address>, from: Address, to: Address,
                           amount: nat)
    requires Linked(s) && Classify(cfg, s, from, to).Some?
    ensures var r := TransferRow(cfg, h, Classify(cfg, s, from, to).value, token, from, to, amount);
            LinksResolve(s.(funding := if r.funding.Some? then s.funding[r.funding.value := FundingEvent(0, 0)]
                else s.funding), r)
  {
    assert from in s.tracked ==> LinkOk(s, from);
    assert to in s.tracked ==> LinkOk(s, to);
  }

  lemma BookedIsGrouped(cfg: Config, s: State, e: Event, r: Row)
    requires WellFormed(e) && (e.Erc20Transfer? || e.NativeReceived?) && r in NewRows(cfg, s, e)
    ensures r.funding.Some? ==> r.funding.value in Step(cfg, s, e).funding
  {
  }

  lemma NewRowOk(cfg: Config, s: State, e: Event, r: Row)
    requires Inv(s) && WellFormed(e) && r in NewRows(cfg, s, e)
    ensures RowOk(cfg, Step(cfg, s, e), r)
  {
    if e.Erc20Transfer? {
      ClassifiedIsExplained(cfg, s, e.h, Some(e.token), e.from, e.to, e.amount);
      ClassifiedResolves(cfg, s, e.h, Some(e.token), e.from, e.to, e.amount);
      TransferFrame(cfg, s, e.h, e.token, e.from, e.to, e.amount);
      BookedIsGrouped(cfg, s, e, r);
    } else if e.NativeReceived? {
      ClassifiedIsExplained(cfg, s, e.h, None, e.sender, e.safe, e.amount);
      ClassifiedResolves(cfg, s, e.h, None, e.sender, e.safe, e.amount);
      NativeFrame(cfg, s, e.h, e.safe, e.sender, e.amount);
      BookedIsGrouped(cfg, s, e, r);
    }
  }

  /**
   For every run and every raw row, at any later time: its links lead to stored entities, and its category,
   service, Master Safe, Agent Safe and funding group are those the roles of its two addresses call for.
   */
  lemma {:induction false} RowsStayExplained(cfg: Config, es: Trace, r: Row)
    requires r in Run(cfg, es).rows
    ensures RowOk(cfg, Run(cfg, es), r)
  {
    var init, e := es[..|es| - 1], es[|es| - 1];
    var s := Run(cfg, init);
    RunKeepsInv(cfg, init);
    StepAppendsRows(cfg, s, e);
    if r in s.rows {
      RowsStayExplained(cfg, init, r);
      StepKeepsInv(cfg, s, e);
      PearlRows.StepKeepsFundingKeys(cfg, s, e);
      RowStays(cfg, s, Step(cfg, s, e), r);
    } else {
      NewRowOk(cfg, s, e, r);
    }
  }
}
