/**
 What a TokenBalance means: the balances kept by the handlers against the ERC-20
 ledger of the same events.
 */
module PearlLedger {
  import opened Collections
  import opened PearlIds
  import opened PearlState
  import opened PearlFrames
  import opened PearlInvariants

  /** The ways an event can concern an address `a` and a token. */
  datatype Flow =
    | Inflow          // a transfer to `a`
    | Outflow         // a transfer from `a`
    | FromSrtu        // ... an inflow sent by the ServiceRegistryTokenUtility
    | ToSrtu          // ... an outflow received by it
    | FromRegistry    // ... an inflow sent by ServiceRegistryL2 (which is not an Agent Safe)
    | FromRole(role: Role)  // ... an inflow sent by an address tracked with that role
    | Deposited       // a TokenDeposit by `a`
    | Refunded        // a TokenRefund to `a`

  predicate Matches(cfg: Config, t: map<Address, Tracked>, e: Event, flow: Flow, a: Address, token: Address) {
    match flow
    case Inflow => e.Erc20Transfer? && e.token == token && e.to == a
    case Outflow => e.Erc20Transfer? && e.token == token && e.from == a
    case FromSrtu => e.Erc20Transfer? && e.token == token && e.to == a && e.from == cfg.srtu
    case ToSrtu => e.Erc20Transfer? && e.token == token && e.from == a && e.to == cfg.srtu
    case FromRegistry =>
      e.Erc20Transfer? && e.token == token && e.to == a && e.from == cfg.registry && e.from != cfg.srtu
          && !Has(t, e.from, Agent)
    case FromRole(role) => e.Erc20Transfer? && e.token == token && e.to == a && Has(t, e.from, role)
    case Deposited => e.BondDeposit? && e.token == token && e.account == a
    case Refunded => e.BondRefund? && e.token == token && e.account == a
  }

  /** The amounts of the matching events from position `k` on, in order. */
  function Legs(cfg: Config, es: Trace, k: nat, flow: Flow, a: Address, token: Address): seq<int> {
    if |es| <= k then []
    else
      var init := es[..|es| - 1];
      var e := es[|es| - 1];
      if Matches(cfg, Run(cfg, init).tracked, e, flow, a, token)
      then Legs(cfg, init, k, flow, a, token) + [e.amount]
      else Legs(cfg, init, k, flow, a, token)
  }

  function Tally(cfg: Config, es: Trace, k: nat, flow: Flow, a: Address, token: Address): int {
    Sum(Legs(cfg, es, k, flow, a, token))
  }

  /** The token contract's own ledger: what `a` holds after the transfers, from an empty ledger. */
  function Erc20(es: Trace, a: Address, token: Address): int {
    if es == [] then 0
    else
      var e := es[|es| - 1];
      Erc20(es[..|es| - 1], a, token)
      + (if e.Erc20Transfer? && e.token == token && e.to == a then e.amount else 0)
      - (if e.Erc20Transfer? && e.token == token && e.from == a then e.amount else 0)
  }

  function Balance(cfg: Config, es: Trace, a: Address, token: Address): int {
    BalanceOf(Run(cfg, es).balances, a, token)
  }

  /** The change one event makes to one balance, read off the role pair alone. */
  function Delta(cfg: Config, t: map<Address, Tracked>, e: Event, a: Address, token: Address): int {
    match e
    case Erc20Transfer(_, tok, from, to, amount) =>
      Signed(tok == token && to == a && Credits(cfg, t, from, to), amount)
      - Signed(tok == token && from == a && Debits(cfg, t, from, to), amount)
    case BondDeposit(_, account, tok, amount) => Signed(tok == token && account == a && Has(t, a, Master), 0 - amount)
    case BondRefund(_, account, tok, amount) => Signed(tok == token && account == a && Has(t, a, Master), amount)
    case _ => 0
  }

  lemma TransferMoves(cfg: Config, s: State, h: Header, token: Address, from: Address, to: Address, amount: nat,
                      a: Address, tok: Address)
    ensures BalanceOf(TransferErc20(cfg, s, h, token, from, to, amount).balances, a, tok)
         == BalanceOf(s.balances, a, tok)
          + Delta(cfg, s.tracked, Erc20Transfer(h, token, from, to, amount), a, tok)
  {
    var c := Classify(cfg, s, from, to);
    if c.Some? {
      assert TransferErc20(cfg, s, h, token, from, to, amount).balances
          == TransferBalances(cfg, s, token, from, to, amount);
    } else {
      assert !Credits(cfg, s.tracked, from, to) && !Debits(cfg, s.tracked, from, to);
    }
  }

  lemma BondMoves(s: State, account: Address, tok: Address, delta: int, a: Address, token: Address)
    ensures BalanceOf(MoveBond(s, account, tok, delta).balances, a, token)
         == BalanceOf(s.balances, a, token) + Signed(tok == token && account == a && Has(s.tracked, a, Master), delta)
  {
  }

  /** Every handler changes every balance by exactly `Delta`. */
  lemma StepMoves(cfg: Config, s: State, e: Event, a: Address, token: Address)
    requires WellFormed(e)
    ensures BalanceOf(Step(cfg, s, e).balances, a, token)
         == BalanceOf(s.balances, a, token) + Delta(cfg, s.tracked, e, a, token)
  {
    if IsDiscovery(e) {
      DiscoveryFrame(s, e);
    } else if e.Erc20Transfer? {
      TransferMoves(cfg, s, e.h, e.token, e.from, e.to, e.amount, a, token);
    } else if e.BondDeposit? {
      BondMoves(s, e.account, e.token, 0 - e.amount, a, token);
    } else if e.BondRefund? {
      BondMoves(s, e.account, e.token, e.amount, a, token);
    } else if e.NativeReceived? {
      NativeFrame(cfg, s, e.h, e.safe, e.sender, e.amount);
    } else if e.RewardClaimed? {
      ClaimFrame(cfg, s, e.h, e.proxy, e.sid, e.owner, e.multisig, e.reward);
    } else if e.Unstaked? {
      UnstakeFrame(cfg, s, e.h, e.proxy, e.sid, e.owner, e.multisig, e.reward);
    } else {
      EvictFrame(s, e.h, e.proxy, e.sids, e.owners, e.multisigs);
    }
  }

  /** What one event adds to a tally. */
  function Term(cfg: Config, t: map<Address, Tracked>, e: Event, flow: Flow, a: Address, token: Address): int {
    if Matches(cfg, t, e, flow, a, token) then e.amount else 0
  }

  lemma TallyStep(cfg: Config, es: Trace, k: nat, flow: Flow, a: Address, token: Address)
    requires k < |es|
    ensures Tally(cfg, es, k, flow, a, token)
         == Tally(cfg, es[..|es| - 1], k, flow, a, token)
          + Term(cfg, Run(cfg, es[..|es| - 1]).tracked, es[|es| - 1], flow, a, token)
  {
    var init := es[..|es| - 1];
    var e := es[|es| - 1];
    if Matches(cfg, Run(cfg, init).tracked, e, flow, a, token) {
      var l := Legs(cfg, init, k, flow, a, token);
      assert (l + [e.amount])[..|l|] == l;
    }
  }

  /** Before an address is tracked it has no balance. */
  lemma UntrackedHasNoBalance(cfg: Config, es: Trace, a: Address, token: Address)
    requires a !in Run(cfg, es).tracked
    ensures Balance(cfg, es, a, token) == 0
  {
    RunKeepsInv(cfg, es);
  }

  /** `a` has been tracked since event `k`, which tracked it. */
  ghost predicate TrackedSince(cfg: Config, es: Trace, a: Address, k: nat) {
    && 0 < k <= |es|
    && a !in Run(cfg, es[..k - 1]).tracked
    && a in Run(cfg, es[..k]).tracked
  }

  /** Every tracked address was tracked by some event of the run. */
  lemma {:induction false} TrackedSinceSome(cfg: Config, es: Trace, a: Address) returns (k: nat)
    requires a in Run(cfg, es).tracked
    ensures TrackedSince(cfg, es, a, k)
  {
    var init := es[..|es| - 1];
    if a in Run(cfg, init).tracked {
      k := TrackedSinceSome(cfg, init, a);
      assert init[..k] == es[..k] && init[..k - 1] == es[..k - 1];
    } else {
      k := |es|;
      assert es[..k] == es;
    }
  }

  lemma FreshlyTrackedHasNoBalance(cfg: Config, es: Trace, a: Address, token: Address, k: nat)
    requires TrackedSince(cfg, es, a, k)
    ensures Balance(cfg, es[..k], a, token) == 0
  {
    var s, e := Run(cfg, es[..k - 1]), es[k - 1];
    assert es[..k][..k - 1] == es[..k - 1];
    if !IsDiscovery(e) {
      FundsFrame(cfg, s, e);
      assert false;
    }
    UntrackedHasNoBalance(cfg, es[..k - 1], a, token);
    DiscoveryFrame(s, e);
  }

  function MasterTerms(cfg: Config, t: map<Address, Tracked>, e: Event, a: Address, token: Address): int {
    Term(cfg, t, e, Inflow, a, token) - Term(cfg, t, e, Outflow, a, token)
    - Term(cfg, t, e, FromRegistry, a, token)
    - Term(cfg, t, e, FromSrtu, a, token) + Term(cfg, t, e, ToSrtu, a, token)
    - Term(cfg, t, e, Deposited, a, token) + Term(cfg, t, e, Refunded, a, token)
  }

  lemma MasterDelta(cfg: Config, t: map<Address, Tracked>, e: Event, a: Address, token: Address)
    requires a != cfg.srtu && a != cfg.registry && Has(t, a, Master)
    ensures Delta(cfg, t, e, a, token) == MasterTerms(cfg, t, e, a, token)
  {
  }

  lemma AgentDelta(cfg: Config, t: map<Address, Tracked>, e: Event, a: Address, token: Address)
    requires a != cfg.srtu && Has(t, a, Agent)
    ensures Delta(cfg, t, e, a, token)
         == Term(cfg, t, e, Inflow, a, token) - Term(cfg, t, e, Outflow, a, token)
             - Term(cfg, t, e, FromRole(Agent), a, token)
  {
  }

  lemma AgentEoaDelta(cfg: Config, t: map<Address, Tracked>, e: Event, a: Address, token: Address)
    requires a != cfg.srtu && Has(t, a, AgentEoa)
    ensures Delta(cfg, t, e, a, token) == Term(cfg, t, e, FromRole(Master), a, token)
  {
  }

  lemma TrackedSinceInit(cfg: Config, es: Trace, a: Address, k: nat)
    requires TrackedSince(cfg, es, a, k) && k < |es|
    ensures TrackedSince(cfg, es[..|es| - 1], a, k)
    ensures a in Run(cfg, es[..|es| - 1]).tracked
    ensures a in Run(cfg, es).tracked && Run(cfg, es).tracked[a] == Run(cfg, es[..|es| - 1]).tracked[a]
  {
    var init := es[..|es| - 1];
    assert init[..k] == es[..k] && init[..k - 1] == es[..k - 1];
    RunExtends(cfg, init, k);
    RunKeepsInv(cfg, init);
    StepKeepsInv(cfg, Run(cfg, init), es[|es| - 1]);
  }

  function MasterTallies(cfg: Config, es: Trace, k: nat, a: Address, token: Address): int {
    Tally(cfg, es, k, Inflow, a, token) - Tally(cfg, es, k, Outflow, a, token)
    - Tally(cfg, es, k, FromRegistry, a, token)
    - Tally(cfg, es, k, FromSrtu, a, token) + Tally(cfg, es, k, ToSrtu, a, token)
    - Tally(cfg, es, k, Deposited, a, token) + Tally(cfg, es, k, Refunded, a, token)
  }

  lemma MasterTalliesStep(cfg: Config, es: Trace, k: nat, a: Address, token: Address)
    requires k < |es|
    ensures MasterTallies(cfg, es, k, a, token)
         == MasterTallies(cfg, es[..|es| - 1], k, a, token)
          + MasterTerms(cfg, Run(cfg, es[..|es| - 1]).tracked, es[|es| - 1], a, token)
  {
    TallyStep(cfg, es, k, Inflow, a, token);
    TallyStep(cfg, es, k, Outflow, a, token);
    TallyStep(cfg, es, k, FromRegistry, a, token);
    TallyStep(cfg, es, k, FromSrtu, a, token);
    TallyStep(cfg, es, k, ToSrtu, a, token);
    TallyStep(cfg, es, k, Deposited, a, token);
    TallyStep(cfg, es, k, Refunded, a, token);
  }

  /**
   A Master Safe's balance, for every run: the net transfers since it was tracked, with the
   SRTU legs replaced by the booked deposits and refunds and the registry's transfers left out.
   */
  lemma {:induction false} MasterBalanceSince(cfg: Config, es: Trace, k: nat, a: Address, token: Address)
    requires a != cfg.srtu && a != cfg.registry
    requires TrackedSince(cfg, es, a, k) && Has(Run(cfg, es).tracked, a, Master)
    ensures Balance(cfg, es, a, token) == MasterTallies(cfg, es, k, a, token)
    decreases |es|
  {
    if k == |es| {
      assert es[..k] == es;
      FreshlyTrackedHasNoBalance(cfg, es, a, token, k);
    } else {
      var init := es[..|es| - 1];
      TrackedSinceInit(cfg, es, a, k);
      MasterBalanceSince(cfg, init, k, a, token);
      MasterDelta(cfg, Run(cfg, init).tracked, es[|es| - 1], a, token);
      MasterTalliesStep(cfg, es, k, a, token);
      StepMoves(cfg, Run(cfg, init), es[|es| - 1], a, token);
    }
  }

  /**
   An Agent Safe's balance, for every run: its net transfers since it was tracked, less what
   other Agent Safes sent it (those transfers debit the sender only).
   */
  lemma {:induction false} AgentBalanceSince(cfg: Config, es: Trace, k: nat, a: Address, token: Address)
    requires a != cfg.srtu
    requires TrackedSince(cfg, es, a, k) && Has(Run(cfg, es).tracked, a, Agent)
    ensures Balance(cfg, es, a, token)
         == Tally(cfg, es, k, Inflow, a, token) - Tally(cfg, es, k, Outflow, a, token)
          - Tally(cfg, es, k, FromRole(Agent), a, token)
    decreases |es|
  {
    if k == |es| {
      assert es[..k] == es;
      FreshlyTrackedHasNoBalance(cfg, es, a, token, k);
    } else {
      var init := es[..|es| - 1];
      TrackedSinceInit(cfg, es, a, k);
      AgentBalanceSince(cfg, init, k, a, token);
      AgentDelta(cfg, Run(cfg, init).tracked, es[|es| - 1], a, token);
      TallyStep(cfg, es, k, Inflow, a, token);
      TallyStep(cfg, es, k, Outflow, a, token);
      TallyStep(cfg, es, k, FromRole(Agent), a, token);
      StepMoves(cfg, Run(cfg, init), es[|es| - 1], a, token);
    }
  }

  /** An Agent EOA is credited with what Master Safes send it and never debited. */
  lemma {:induction false} AgentEoaBalanceSince(cfg: Config, es: Trace, k: nat, a: Address, token: Address)
    requires a != cfg.srtu
    requires TrackedSince(cfg, es, a, k) && Has(Run(cfg, es).tracked, a, AgentEoa)
    ensures Balance(cfg, es, a, token) == Tally(cfg, es, k, FromRole(Master), a, token)
    decreases |es|
  {
    if k == |es| {
      assert es[..k] == es;
      FreshlyTrackedHasNoBalance(cfg, es, a, token, k);
    } else {
      var init := es[..|es| - 1];
      TrackedSinceInit(cfg, es, a, k);
      AgentEoaBalanceSince(cfg, init, k, a, token);
      AgentEoaDelta(cfg, Run(cfg, init).tracked, es[|es| - 1], a, token);
      TallyStep(cfg, es, k, FromRole(Master), a, token);
      StepMoves(cfg, Run(cfg, init), es[|es| - 1], a, token);
    }
  }

  /** The net transfers since `k` are the change of the token contract's own ledger. */
  lemma {:induction false} NetFlowIsErc20Change(cfg: Config, es: Trace, k: nat, a: Address, token: Address)
    requires k <= |es|
    ensures Tally(cfg, es, k, Inflow, a, token) - Tally(cfg, es, k, Outflow, a, token)
         == Erc20(es, a, token) - Erc20(es[..k], a, token)
    decreases |es|
  {
    if k == |es| {
      assert es[..k] == es;
    } else {
      NetFlowIsErc20Change(cfg, es[..|es| - 1], k, a, token);
      assert es[..|es| - 1][..k] == es[..k];
      TallyStep(cfg, es, k, Inflow, a, token);
      TallyStep(cfg, es, k, Outflow, a, token);
    }
  }

  /** Every Master/SRTU transfer since `k` has its own deposit or refund of the same amount. */
  ghost predicate BondsPaired(cfg: Config, es: Trace, k: nat, a: Address, token: Address) {
    && multiset(Legs(cfg, es, k, ToSrtu, a, token)) == multiset(Legs(cfg, es, k, Deposited, a, token))
    && multiset(Legs(cfg, es, k, FromSrtu, a, token)) == multiset(Legs(cfg, es, k, Refunded, a, token))
  }

  /**
   With paired bonds a Master Safe's TokenBalance is the change of its holdings in the token
   contract since it was tracked, less the transfers ServiceRegistryL2 sent it.
   */
  lemma MasterBalanceIsHoldings(cfg: Config, es: Trace, k: nat, a: Address, token: Address)
    requires a != cfg.srtu && a != cfg.registry
    requires TrackedSince(cfg, es, a, k) && Has(Run(cfg, es).tracked, a, Master)
    requires BondsPaired(cfg, es, k, a, token)
    ensures Balance(cfg, es, a, token)
         == Erc20(es, a, token) - Erc20(es[..k], a, token) - Tally(cfg, es, k, FromRegistry, a, token)
  {
    MasterBalanceSince(cfg, es, k, a, token);
    NetFlowIsErc20Change(cfg, es, k, a, token);
    SumOfMultiset(Legs(cfg, es, k, ToSrtu, a, token), Legs(cfg, es, k, Deposited, a, token));
    SumOfMultiset(Legs(cfg, es, k, FromSrtu, a, token), Legs(cfg, es, k, Refunded, a, token));
  }

  /** ... and it is exactly that change when and only when the suppressed and booked legs net out. */
  lemma MasterBalanceExactIff(cfg: Config, es: Trace, k: nat, a: Address, token: Address)
    requires a != cfg.srtu && a != cfg.registry
    requires TrackedSince(cfg, es, a, k) && Has(Run(cfg, es).tracked, a, Master)
    ensures Balance(cfg, es, a, token) == Erc20(es, a, token) - Erc20(es[..k], a, token)
      <==> Tally(cfg, es, k, ToSrtu, a, token) - Tally(cfg, es, k, FromSrtu, a, token)
           == (Tally(cfg, es, k, Deposited, a, token) - Tally(cfg, es, k, Refunded, a, token)
               + Tally(cfg, es, k, FromRegistry, a, token))
  {
    MasterBalanceSince(cfg, es, k, a, token);
    NetFlowIsErc20Change(cfg, es, k, a, token);
  }

  /** An Agent Safe's TokenBalance falls short of its holdings by what Agent Safes sent it. */
  lemma AgentBalanceIsHoldings(cfg: Config, es: Trace, k: nat, a: Address, token: Address)
    requires a != cfg.srtu
    requires TrackedSince(cfg, es, a, k) && Has(Run(cfg, es).tracked, a, Agent)
    ensures Balance(cfg, es, a, token)
         == Erc20(es, a, token) - Erc20(es[..k], a, token) - Tally(cfg, es, k, FromRole(Agent), a, token)
  {
    AgentBalanceSince(cfg, es, k, a, token);
    NetFlowIsErc20Change(cfg, es, k, a, token);
  }

  /** Addresses never tracked, Master EOAs and staking proxies have no TokenBalance in any run. */
  lemma OnlySafesAndAgentsHaveBalances(cfg: Config, es: Trace, a: Address, token: Address)
    requires (a, token) in Run(cfg, es).balances
    ensures var t := Run(cfg, es).tracked; Has(t, a, Master) || Has(t, a, Agent) || Has(t, a, AgentEoa)
  {
    RunKeepsInv(cfg, es);
    var k :| k == (a, token) && k in Run(cfg, es).balances;
    assert Has(Run(cfg, es).tracked, k.0, Master) || Has(Run(cfg, es).tracked, k.0, Agent)
        || Has(Run(cfg, es).tracked, k.0, AgentEoa);
  }
}
