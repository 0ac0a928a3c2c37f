/** What the events of a run say of each service: its existence, its Safes and its operators. */
module PearlServices {
  import opened Collections
  import opened PearlIds
  import opened PearlState

  // ----- one step ----------------------------------------------------------

  /** The events that load a service or create it. Registrations only load it. */
  predicate Mentions(e: Event, sid: nat) {
    || ((e.MultisigCreated? || e.NftMoved? || e.Terminated? || e.Staked? || e.RewardClaimed? || e.Unstaked?)
        && e.sid == sid)
    || (e.Evicted? && sid in e.sids)
  }

  predicate NamesMultisig(e: Event, sid: nat) {
    (e.MultisigCreated? || e.Staked?) && e.sid == sid
  }

  predicate Offers(e: Event, sid: nat) {
    (e.NftMoved? || e.Staked?) && e.sid == sid
  }

  /** The address that may become the Master Safe of the service. */
  function Candidate(e: Event): Address
    requires e.NftMoved? || e.Staked?
  {
    if e.NftMoved? then e.recipient else e.owner
  }

  /**
   The event hands the service to an address that is a Master Safe afterwards: to its staker, or to the
   recipient of its token, unless the token is burnt or goes to a staking proxy.
   */
  predicate Links(s: State, s': State, e: Event, sid: nat) {
    && Offers(e, sid) && Candidate(e) in s'.masters
    && (e.NftMoved? ==> e.recipient != 0 && e.recipient !in s.staking)
  }

  function StoredService(s: State, sid: nat): Service {
    if sid in s.services then s.services[sid] else Service([], None, None, 0)
  }

  ghost predicate ServiceStep(s: State, s': State, e: Event, sid: nat) {
    && (sid in s'.services <==> sid in s.services || Mentions(e, sid))
    && StoredService(s', sid).masterSafe
         == (if Links(s, s', e, sid) then Some(Candidate(e)) else StoredService(s, sid).masterSafe)
    && StoredService(s', sid).agentSafe
         == (if NamesMultisig(e, sid) then Some(e.multisig) else StoredService(s, sid).agentSafe)
  }

  ghost predicate SameServices(s: State, s': State) {
    s'.services == s.services && s'.pending == s.pending
  }

  lemma MasterKeepsServices(s: State, a: Address, probe: Option<seq<Address>>)
    ensures SameServices(s, DiscoverMaster(s, a, probe))
  {
  }

  lemma AgentKeepsServices(s: State, a: Address, sid: nat, svc: Service)
    ensures SameServices(s, DiscoverAgent(s, a, sid, svc)) && DiscoverAgent(s, a, sid, svc).masters == s.masters
  {
  }

  lemma MultisigService(s: State, e: Event, sid: nat)
    requires e.MultisigCreated?
    ensures ServiceStep(s, CreateMultisig(s, e.sid, e.multisig), e, sid)
  {
    var svc := ServiceOf(s, e.sid).(operators := Merge(ServiceOf(s, e.sid).operators, PendingOf(s, e.sid)));
    AgentKeepsServices(s, e.multisig, e.sid, svc);
    assert CreateMultisig(s, e.sid, e.multisig).services == s.services[e.sid := svc.(agentSafe := Some(e.multisig))];
  }

  predicate NftLinks(s: State, s': State, recipient: Address) {
    recipient != ZERO_ADDRESS && recipient !in s.staking && recipient in s'.masters
  }

  lemma NftWrites(s: State, sid: nat, recipient: Address, probe: Option<seq<Address>>)
    ensures var s', svc := MoveNft(s, sid, recipient, probe), ServiceOf(s, sid);
            s'.services == s.services[sid :=
              svc.(masterSafe := if NftLinks(s, s', recipient) then Some(recipient) else svc.masterSafe)]
            && s'.pending == s.pending
  {
    var s', svc, d := MoveNft(s, sid, recipient, probe), ServiceOf(s, sid), DiscoverMaster(s, recipient, probe);
    MasterKeepsServices(s, recipient, probe);
    if recipient == ZERO_ADDRESS || recipient in s.staking {
      assert s' == SaveService(s, sid, svc);
      assert svc.(masterSafe := svc.masterSafe) == svc;
    } else if recipient in d.masters {
      assert s' == SaveService(d, sid, svc.(masterSafe := Some(recipient)));
    } else {
      assert s' == SaveService(d, sid, svc);
      assert svc.(masterSafe := svc.masterSafe) == svc;
    }
  }

  lemma NftService(s: State, e: Event, sid: nat)
    requires e.NftMoved?
    ensures ServiceStep(s, MoveNft(s, e.sid, e.recipient, e.probe), e, sid)
  {
    var s' := MoveNft(s, e.sid, e.recipient, e.probe);
    NftWrites(s, e.sid, e.recipient, e.probe);
    assert Links(s, s', e, sid) <==> e.sid == sid && NftLinks(s, s', e.recipient);
  }

  lemma StakeWrites(s: State, sid: nat, owner: Address, multisig: Address, probe: Option<seq<Address>>)
    ensures var s', svc := Stake(s, sid, owner, multisig, probe), ServiceOf(s, sid);
            s'.services == s.services[sid :=
              svc.(masterSafe := if owner in s'.masters then Some(owner) else svc.masterSafe,
                   agentSafe := Some(multisig))]
            && s'.pending == s.pending
  {
    var d := DiscoverMaster(s, owner, probe);
    var svc := if owner in d.masters then ServiceOf(s, sid).(masterSafe := Some(owner)) else ServiceOf(s, sid);
    MasterKeepsServices(s, owner, probe);
    AgentKeepsServices(d, multisig, sid, svc);
  }

  lemma StakeService(s: State, e: Event, sid: nat)
    requires e.Staked?
    ensures ServiceStep(s, Stake(s, e.sid, e.owner, e.multisig, e.probe), e, sid)
  {
    var s' := Stake(s, e.sid, e.owner, e.multisig, e.probe);
    StakeWrites(s, e.sid, e.owner, e.multisig, e.probe);
    assert Links(s, s', e, sid) <==> e.sid == sid && e.owner in s'.masters;
  }

  lemma SavedService(s: State, e: Event, sid: nat)
    requires e.Terminated?
    ensures ServiceStep(s, SaveService(s, e.sid, ServiceOf(s, e.sid)), e, sid)
  {
  }

  /** A reward moves only the claimed total of its service. */
  function Rewarded(s: State, sid: nat, reward: nat): map<nat, Service> {
    s.services[sid := ServiceOf(s, sid).(totalClaimed := ServiceOf(s, sid).totalClaimed + reward)]
  }

  lemma ClaimWrites(cfg: Config, s: State, h: Header, proxy: Address, sid: nat, owner: Address, multisig: Address,
                    reward: nat)
    ensures ClaimReward(cfg, s, h, proxy, sid, owner, multisig, reward).services == Rewarded(s, sid, reward)
    ensures ClaimReward(cfg, s, h, proxy, sid, owner, multisig, reward).pending == s.pending
  {
  }

  lemma UnstakeWrites(cfg: Config, s: State, h: Header, proxy: Address, sid: nat, owner: Address, multisig: Address,
                      reward: nat)
    ensures Unstake(cfg, s, h, proxy, sid, owner, multisig, reward).services == Rewarded(s, sid, reward)
    ensures Unstake(cfg, s, h, proxy, sid, owner, multisig, reward).pending == s.pending
  {
    if reward == 0 {
      assert Rewarded(s, sid, 0) == s.services[sid := ServiceOf(s, sid)];
    }
  }

  lemma RewardService(s: State, s': State, e: Event, sid: nat)
    requires (e.RewardClaimed? || e.Unstaked?) && s'.services == Rewarded(s, e.sid, e.reward)
    ensures ServiceStep(s, s', e, sid)
  {
  }

  lemma EvictService(s: State, e: Event, sid: nat)
    requires e.Evicted? && Fits(|e.sids|)
    ensures ServiceStep(s, Evict(s, e.h, e.proxy, e.sids, e.owners, e.multisigs), e, sid)
  {
  }

  lemma RegistrationService(s: State, e: Event, sid: nat)
    requires e.InstanceRegistered?
    ensures ServiceStep(s, RegisterInstance(s, e.sid, e.operator), e, sid)
  {
    assert e.sid !in s.services ==> RegisterInstance(s, e.sid, e.operator).services == s.services;
  }

  lemma TransferKeepsServices(cfg: Config, s: State, h: Header, token: Address, from: Address, to: Address, amount: nat)
    ensures SameServices(s, TransferErc20(cfg, s, h, token, from, to, amount))
  {
  }

  lemma ReceiptKeepsServices(cfg: Config, s: State, h: Header, safe: Address, sender: Address, amount: nat)
    ensures SameServices(s, ReceiveNative(cfg, s, h, safe, sender, amount))
  {
  }

  lemma BondKeepsServices(s: State, account: Address, token: Address, delta: int)
    ensures SameServices(s, MoveBond(s, account, token, delta))
  {
  }

  lemma ProxyKeepsServices(s: State, proxy: Address, accepted: bool)
    ensures SameServices(s, CreateProxy(s, proxy, accepted))
  {
  }

  lemma OwnersKeepServices(s: State, safe: Address, owner: Address)
    ensures SameServices(s, AddOwner(s, safe, owner)) && SameServices(s, RemoveOwner(s, safe, owner))
  {
  }

  predicate Unrelated(e: Event) {
    || e.Erc20Transfer? || e.NativeReceived? || e.BondDeposit? || e.BondRefund? || e.ProxyCreated? || e.OwnerAdded?
    || e.OwnerRemoved?
  }

  lemma UnrelatedKeepsServices(cfg: Config, s: State, e: Event)
    requires WellFormed(e) && Unrelated(e)
    ensures SameServices(s, Step(cfg, s, e))
  {
    if e.Erc20Transfer? {
      TransferKeepsServices(cfg, s, e.h, e.token, e.from, e.to, e.amount);
    } else if e.NativeReceived? {
      ReceiptKeepsServices(cfg, s, e.h, e.safe, e.sender, e.amount);
    } else if e.BondDeposit? {
      BondKeepsServices(s, e.account, e.token, 0 - e.amount);
    } else if e.BondRefund? {
      BondKeepsServices(s, e.account, e.token, e.amount);
    } else if e.ProxyCreated? {
      ProxyKeepsServices(s, e.proxy, e.accepted);
    } else {
      OwnersKeepServices(s, e.safe, e.owner);
    }
  }

  lemma UnrelatedService(s: State, s': State, e: Event, sid: nat)
    requires Unrelated(e) && SameServices(s, s')
    ensures ServiceStep(s, s', e, sid)
  {
  }

  lemma StepService(cfg: Config, s: State, e: Event, sid: nat)
    requires WellFormed(e)
    ensures ServiceStep(s, Step(cfg, s, e), e, sid)
  {
    if e.MultisigCreated? {
      MultisigService(s, e, sid);
    } else if e.NftMoved? {
      NftService(s, e, sid);
    } else if e.Staked? {
      StakeService(s, e, sid);
    } else if e.Terminated? {
      SavedService(s, e, sid);
    } else if e.InstanceRegistered? {
      RegistrationService(s, e, sid);
    } else if e.RewardClaimed? || e.Unstaked? {
      if e.RewardClaimed? {
        ClaimWrites(cfg, s, e.h, e.proxy, e.sid, e.owner, e.multisig, e.reward);
      } else {
        UnstakeWrites(cfg, s, e.h, e.proxy, e.sid, e.owner, e.multisig, e.reward);
      }
      RewardService(s, Step(cfg, s, e), e, sid);
    } else if e.Evicted? {
      EvictService(s, e, sid);
    } else {
      UnrelatedKeepsServices(cfg, s, e);
      UnrelatedService(s, Step(cfg, s, e), e, sid);
    }
  }

  lemma RunLast(cfg: Config, es: Trace)
    requires es != []
    ensures Run(cfg, es) == Step(cfg, Run(cfg, es[..|es| - 1]), es[|es| - 1])
    ensures es[..|es|] == es
  {
  }

  // ----- over runs ---------------------------------------------------------

  ghost predicate Mentioned(es: Trace, sid: nat) {
    exists i :: 0 <= i < |es| && Mentions(es[i], sid)
  }

  lemma MentionedNext(es: Trace, sid: nat)
    requires es != []
    ensures Mentioned(es, sid) <==> Mentioned(es[..|es| - 1], sid) || Mentions(es[|es| - 1], sid)
  {
    var init := es[..|es| - 1];
    assert forall i :: 0 <= i < |init| ==> init[i] == es[i];
  }

  /** A service is stored exactly when an event that creates services has named it. */
  lemma {:induction false} ServiceStoredIff(cfg: Config, es: Trace, sid: nat)
    ensures sid in Run(cfg, es).services <==> Mentioned(es, sid)
  {
    if es != [] {
      MentionedNext(es, sid);
      ServiceStoredIff(cfg, es[..|es| - 1], sid);
      StepService(cfg, Run(cfg, es[..|es| - 1]), es[|es| - 1], sid);
    }
  }

  /** Event `i` of a run links the service. */
  ghost predicate LinkedAt(cfg: Config, es: Trace, i: nat, sid: nat)
    requires i < |es|
  {
    Links(Run(cfg, es[..i]), Run(cfg, es[..i + 1]), es[i], sid)
  }

  ghost predicate LinkedSince(cfg: Config, es: Trace, first: nat, sid: nat) {
    exists j: nat :: first <= j < |es| && LinkedAt(cfg, es, j, sid)
  }

  lemma LinkedAtPrefix(cfg: Config, es: Trace, j: nat, sid: nat)
    requires j < |es| - 1
    ensures LinkedAt(cfg, es, j, sid) == LinkedAt(cfg, es[..|es| - 1], j, sid)
  {
    var init := es[..|es| - 1];
    assert init[..j] == es[..j] && init[..j + 1] == es[..j + 1];
  }

  lemma LinkedAtLast(cfg: Config, es: Trace, sid: nat)
    requires es != []
    ensures LinkedAt(cfg, es, |es| - 1, sid) == Links(Run(cfg, es[..|es| - 1]), Run(cfg, es), es[|es| - 1], sid)
  {
    assert es[..|es| - 1 + 1] == es;
  }

  lemma LinkedSincePrefix(cfg: Config, es: Trace, first: nat, sid: nat)
    requires first < |es| && !LinkedSince(cfg, es, first, sid)
    ensures !LinkedSince(cfg, es[..|es| - 1], first, sid)
    ensures !Links(Run(cfg, es[..|es| - 1]), Run(cfg, es), es[|es| - 1], sid)
  {
    var init, n := es[..|es| - 1], |es| - 1;
    LinkedAtLast(cfg, es, sid);
    assert !LinkedAt(cfg, es, n, sid);
    if LinkedSince(cfg, init, first, sid) {
      var j: nat :| first <= j < |init| && LinkedAt(cfg, init, j, sid);
      LinkedAtPrefix(cfg, es, j, sid);
    }
  }

  /** The Master Safe of a service is the one its last link handed it to, whether or not it had one before. */
  lemma {:induction false} MasterOfLastLink(cfg: Config, es: Trace, i: nat, sid: nat)
    requires i < |es| && LinkedAt(cfg, es, i, sid) && !LinkedSince(cfg, es, i + 1, sid)
    ensures sid in Run(cfg, es).services && Run(cfg, es).services[sid].masterSafe == Some(Candidate(es[i]))
    decreases |es|
  {
    var init, n := es[..|es| - 1], |es| - 1;
    RunLast(cfg, es);
    StepService(cfg, Run(cfg, init), es[n], sid);
    if i < n {
      LinkedAtPrefix(cfg, es, i, sid);
      LinkedSincePrefix(cfg, es, i + 1, sid);
      MasterOfLastLink(cfg, init, i, sid);
    } else {
      LinkedAtLast(cfg, es, sid);
    }
  }

  /** ... and a service no event has linked has none. */
  lemma {:induction false} UnlinkedHasNoMaster(cfg: Config, es: Trace, sid: nat)
    requires !LinkedSince(cfg, es, 0, sid)
    ensures sid in Run(cfg, es).services ==> Run(cfg, es).services[sid].masterSafe == None
  {
    if es != [] {
      var init, n := es[..|es| - 1], |es| - 1;
      RunLast(cfg, es);
      LinkedSincePrefix(cfg, es, 0, sid);
      UnlinkedHasNoMaster(cfg, init, sid);
      StepService(cfg, Run(cfg, init), es[n], sid);
    }
  }

  ghost predicate NamedSince(es: Trace, first: nat, sid: nat) {
    exists j :: first <= j < |es| && NamesMultisig(es[j], sid)
  }

  lemma NamedSincePrefix(es: Trace, first: nat, sid: nat)
    requires first < |es| && !NamedSince(es, first, sid)
    ensures !NamedSince(es[..|es| - 1], first, sid) && !NamesMultisig(es[|es| - 1], sid)
  {
    var init := es[..|es| - 1];
    assert forall j :: 0 <= j < |init| ==> init[j] == es[j];
  }

  /** The Agent Safe of a service is the multisig of the last event that names one. */
  lemma {:induction false} AgentOfLastMultisig(cfg: Config, es: Trace, i: nat, sid: nat)
    requires i < |es| && NamesMultisig(es[i], sid) && !NamedSince(es, i + 1, sid)
    ensures sid in Run(cfg, es).services && Run(cfg, es).services[sid].agentSafe == Some(es[i].multisig)
    decreases |es|
  {
    var init, n := es[..|es| - 1], |es| - 1;
    RunLast(cfg, es);
    StepService(cfg, Run(cfg, init), es[n], sid);
    if i < n {
      NamedSincePrefix(es, i + 1, sid);
      AgentOfLastMultisig(cfg, init, i, sid);
    }
  }

  lemma {:induction false} UnnamedHasNoAgent(cfg: Config, es: Trace, sid: nat)
    requires !NamedSince(es, 0, sid)
    ensures sid in Run(cfg, es).services ==> Run(cfg, es).services[sid].agentSafe == None
  {
    if es != [] {
      var init, n := es[..|es| - 1], |es| - 1;
      RunLast(cfg, es);
      NamedSincePrefix(es, 0, sid);
      UnnamedHasNoAgent(cfg, init, sid);
      StepService(cfg, Run(cfg, init), es[n], sid);
    }
  }

  // ----- operators ---------------------------------------------------------

  predicate Registers(e: Event, sid: nat, x: Address) {
    e.InstanceRegistered? && e.sid == sid && e.operator == x
  }

  function StoredPending(s: State, sid: nat): seq<Address> {
    if sid in s.pending then s.pending[sid] else []
  }

  ghost predicate OperatorStep(s: State, s': State, e: Event, sid: nat, x: Address) {
    && (x in StoredService(s', sid).operators <==>
          || x in StoredService(s, sid).operators
          || (Registers(e, sid, x) && sid in s.services)
          || (e.MultisigCreated? && e.sid == sid && x in StoredPending(s, sid)))
    && (x in StoredPending(s', sid) <==> x in StoredPending(s, sid) || (Registers(e, sid, x) && sid !in s.services))
  }

  lemma AddedOnce(list: seq<Address>, a: Address, x: Address)
    ensures x in AddOnce(list, a) <==> x in list || x == a
  {
  }

  lemma Merged(list: seq<Address>, more: seq<Address>, x: Address)
    ensures x in Merge(list, more) <==> x in list || x in more
  {
    MergeUnites(list, more);
    assert x in Merge(list, more) <==> x in Elems(Merge(list, more));
  }

  lemma RegistrationWrites(s: State, sid: nat, operator: Address)
    ensures var s' := RegisterInstance(s, sid, operator);
            if sid in s.services then
              && s'.services == s.services[sid :=
                   s.services[sid].(operators := AddOnce(s.services[sid].operators, operator))]
              && s'.pending == s.pending
            else s'.services == s.services && s'.pending == s.pending[sid := AddOnce(StoredPending(s, sid), operator)]
  {
  }

  lemma RegistrationOperators(s: State, e: Event, sid: nat, x: Address)
    requires e.InstanceRegistered?
    ensures OperatorStep(s, RegisterInstance(s, e.sid, e.operator), e, sid, x)
  {
    RegistrationWrites(s, e.sid, e.operator);
    AddedOnce(StoredService(s, e.sid).operators, e.operator, x);
    AddedOnce(StoredPending(s, e.sid), e.operator, x);
  }

  lemma MultisigOperators(s: State, e: Event, sid: nat, x: Address)
    requires e.MultisigCreated?
    ensures OperatorStep(s, CreateMultisig(s, e.sid, e.multisig), e, sid, x)
  {
    var svc := ServiceOf(s, e.sid).(operators := Merge(ServiceOf(s, e.sid).operators, PendingOf(s, e.sid)));
    AgentKeepsServices(s, e.multisig, e.sid, svc);
    Merged(ServiceOf(s, e.sid).operators, PendingOf(s, e.sid), x);
    assert CreateMultisig(s, e.sid, e.multisig).services == s.services[e.sid := svc.(agentSafe := Some(e.multisig))];
    assert CreateMultisig(s, e.sid, e.multisig).pending == s.pending;
  }

  /** No other event changes an operator list. */
  ghost predicate SameOperators(s: State, s': State, sid: nat) {
    StoredService(s', sid).operators == StoredService(s, sid).operators && s'.pending == s.pending
  }

  lemma NftKeepsOperators(s: State, sid: nat, recipient: Address, probe: Option<seq<Address>>, other: nat)
    ensures SameOperators(s, MoveNft(s, sid, recipient, probe), other)
  {
    NftWrites(s, sid, recipient, probe);
  }

  lemma StakeKeepsOperators(s: State, sid: nat, owner: Address, multisig: Address, probe: Option<seq<Address>>,
                            other: nat)
    ensures SameOperators(s, Stake(s, sid, owner, multisig, probe), other)
  {
    StakeWrites(s, sid, owner, multisig, probe);
  }

  lemma RewardedKeepsOperators(s: State, s': State, sid: nat, reward: nat, other: nat)
    requires s'.services == Rewarded(s, sid, reward) && s'.pending == s.pending
    ensures SameOperators(s, s', other)
  {
  }

  lemma EvictKeepsOperators(s: State, e: Event, sid: nat)
    requires e.Evicted? && Fits(|e.sids|)
    ensures SameOperators(s, Evict(s, e.h, e.proxy, e.sids, e.owners, e.multisigs), sid)
  {
  }

  lemma SavedKeepsOperators(s: State, sid: nat, other: nat)
    ensures SameOperators(s, SaveService(s, sid, ServiceOf(s, sid)), other)
  {
  }

  lemma OthersKeepOperators(cfg: Config, s: State, e: Event, sid: nat)
    requires WellFormed(e) && !e.InstanceRegistered? && !e.MultisigCreated?
    ensures SameOperators(s, Step(cfg, s, e), sid)
  {
    if e.NftMoved? {
      NftKeepsOperators(s, e.sid, e.recipient, e.probe, sid);
    } else if e.Staked? {
      StakeKeepsOperators(s, e.sid, e.owner, e.multisig, e.probe, sid);
    } else if e.RewardClaimed? {
      ClaimWrites(cfg, s, e.h, e.proxy, e.sid, e.owner, e.multisig, e.reward);
      RewardedKeepsOperators(s, Step(cfg, s, e), e.sid, e.reward, sid);
    } else if e.Unstaked? {
      UnstakeWrites(cfg, s, e.h, e.proxy, e.sid, e.owner, e.multisig, e.reward);
      RewardedKeepsOperators(s, Step(cfg, s, e), e.sid, e.reward, sid);
    } else if e.Evicted? {
      EvictKeepsOperators(s, e, sid);
    } else if e.Terminated? {
      SavedKeepsOperators(s, e.sid, sid);
    } else {
      UnrelatedKeepsServices(cfg, s, e);
    }
  }

  lemma StepOperators(cfg: Config, s: State, e: Event, sid: nat, x: Address)
    requires WellFormed(e)
    ensures OperatorStep(s, Step(cfg, s, e), e, sid, x)
  {
    if e.InstanceRegistered? {
      RegistrationOperators(s, e, sid, x);
    } else if e.MultisigCreated? {
      MultisigOperators(s, e, sid, x);
    } else {
      OthersKeepOperators(cfg, s, e, sid);
    }
  }

  /** Registration `i` came before the service was stored. */
  ghost predicate BufferedAt(es: Trace, i: nat, sid: nat, x: Address)
    requires i < |es|
  {
    Registers(es[i], sid, x) && !Mentioned(es[..i], sid)
  }

  ghost predicate Buffered(es: Trace, sid: nat, x: Address) {
    exists i :: 0 <= i < |es| && BufferedAt(es, i, sid, x)
  }

  ghost predicate MultisigAfter(es: Trace, i: nat, sid: nat) {
    exists j :: i < j < |es| && es[j].MultisigCreated? && es[j].sid == sid
  }

  /** Registration `i` names the operator of a stored service, or of one whose multisig is created later. */
  ghost predicate CountsAt(es: Trace, i: nat, sid: nat, x: Address)
    requires i < |es|
  {
    Registers(es[i], sid, x) && (Mentioned(es[..i], sid) || MultisigAfter(es, i, sid))
  }

  ghost predicate Counted(es: Trace, sid: nat, x: Address) {
    exists i :: 0 <= i < |es| && CountsAt(es, i, sid, x)
  }

  lemma BufferedNext(es: Trace, sid: nat, x: Address)
    requires es != []
    ensures var init, e := es[..|es| - 1], es[|es| - 1];
            Buffered(es, sid, x) <==> Buffered(init, sid, x) || (Registers(e, sid, x) && !Mentioned(init, sid))
  {
    var init, n := es[..|es| - 1], |es| - 1;
    assert forall i :: 0 <= i < n ==> init[..i] == es[..i];
    assert BufferedAt(es, n, sid, x) <==> Registers(es[n], sid, x) && !Mentioned(init, sid);
    assert forall i :: 0 <= i < n ==> (BufferedAt(es, i, sid, x) <==> BufferedAt(init, i, sid, x));
  }

  lemma MultisigAfterNext(es: Trace, i: nat, sid: nat)
    requires i < |es| - 1
    ensures var init, e := es[..|es| - 1], es[|es| - 1];
            MultisigAfter(es, i, sid) <==> MultisigAfter(init, i, sid) || (e.MultisigCreated? && e.sid == sid)
  {
    var init := es[..|es| - 1];
    assert forall j :: 0 <= j < |init| ==> init[j] == es[j];
  }

  lemma CountsAtNext(es: Trace, i: nat, sid: nat, x: Address)
    requires i < |es| - 1
    ensures var init, e := es[..|es| - 1], es[|es| - 1];
            CountsAt(es, i, sid, x) <==>
              CountsAt(init, i, sid, x) || (BufferedAt(init, i, sid, x) && e.MultisigCreated? && e.sid == sid)
  {
    assert es[..|es| - 1][..i] == es[..i];
    MultisigAfterNext(es, i, sid);
  }

  lemma CountedNext(es: Trace, sid: nat, x: Address)
    requires es != []
    ensures var init, e := es[..|es| - 1], es[|es| - 1];
            Counted(es, sid, x) <==>
              || Counted(init, sid, x)
              || (Registers(e, sid, x) && Mentioned(init, sid))
              || (e.MultisigCreated? && e.sid == sid && Buffered(init, sid, x))
  {
    var init, n := es[..|es| - 1], |es| - 1;
    forall i | 0 <= i < n
      ensures CountsAt(es, i, sid, x) <==>
              CountsAt(init, i, sid, x) || (BufferedAt(init, i, sid, x) && es[n].MultisigCreated? && es[n].sid == sid)
    {
      CountsAtNext(es, i, sid, x);
    }
    assert !MultisigAfter(es, n, sid);
    assert CountsAt(es, n, sid, x) <==> Registers(es[n], sid, x) && Mentioned(init, sid);
  }

  lemma {:induction false} PendingIff(cfg: Config, es: Trace, sid: nat, x: Address)
    ensures x in StoredPending(Run(cfg, es), sid) <==> Buffered(es, sid, x)
  {
    if es != [] {
      var init := es[..|es| - 1];
      PendingIff(cfg, init, sid, x);
      ServiceStoredIff(cfg, init, sid);
      StepOperators(cfg, Run(cfg, init), es[|es| - 1], sid, x);
      BufferedNext(es, sid, x);
    }
  }

  /**
   The operators of a service are exactly those registered while it was stored, and those registered before
   that once a multisig is created for it.
   */
  lemma {:induction false} OperatorsIff(cfg: Config, es: Trace, sid: nat, x: Address)
    ensures x in StoredService(Run(cfg, es), sid).operators <==>
            exists i :: 0 <= i < |es| && CountsAt(es, i, sid, x)
  {
    assert Counted(es, sid, x) <==> exists i :: 0 <= i < |es| && CountsAt(es, i, sid, x);
    if es != [] {
      var init := es[..|es| - 1];
      OperatorsIff(cfg, init, sid, x);
      assert Counted(init, sid, x) <==> exists i :: 0 <= i < |init| && CountsAt(init, i, sid, x);
      PendingIff(cfg, init, sid, x);
      ServiceStoredIff(cfg, init, sid);
      StepOperators(cfg, Run(cfg, init), es[|es| - 1], sid, x);
      CountedNext(es, sid, x);
    }
  }
}
