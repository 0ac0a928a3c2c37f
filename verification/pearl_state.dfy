/**
 Entity tables of the Pearl transactions subgraph and, as one function per event,
 the state each handler leaves behind. Rows and template spawns are kept as logs in
 the order of the calls that make them.
 */
module PearlState {
  import opened Collections
  import opened PearlIds

  datatype Role = Master | Agent | MasterEoa | AgentEoa | Staking

  /** TrackedAddress: one write-once row per watched address. */
  datatype Tracked = Tracked(role: Role, masterSafe: Option<Address>, service: Option<nat>)
  type Roles = map<Address, Tracked>

  datatype MasterSafe = MasterSafe(masterEoa: Address, owners: seq<Address>, setupSeen: bool)
  datatype AgentSafe = AgentSafe(service: nat, masterSafe: Option<Address>)
  datatype Service = Service(
    operators: seq<Address>,
    masterSafe: Option<Address>,
    agentSafe: Option<Address>,
    totalClaimed: int)

  datatype Category =
    | SafeDeployed | SafeSetupTransfer | MasterFundingIn | MasterWithdrawal | MasterToAgent
    | AgentToMaster | AgentOlasToMaster | AgentToApp | AppToAgent
    | StakingRewardClaim | UnstakeReward | ServiceEvicted | Other
  datatype Source = Semantic | RawTransfer

  datatype FundingKey = FundingKey(tx: TxHash, masterSafe: Address, service: nat)
  datatype FundingEvent = FundingEvent(native: int, olas: int)

  /** FundsMovement: an immutable ledger row. */
  datatype Row = Row(
    key: RowKey,
    category: Category,
    source: Source,
    service: Option<nat>,
    masterSafe: Option<Address>,
    agentSafe: Option<Address>,
    token: Option<Address>,
    amount: int,
    from: Address,
    to: Address,
    funding: Option<FundingKey>)

  /** DailyServiceFunds of one (service, day). */
  datatype Daily = Daily(claimed: int, cumulative: int)

  datatype State = State(
    tracked: map<Address, Tracked>,
    masters: map<Address, MasterSafe>,
    agents: map<Address, AgentSafe>,
    services: map<nat, Service>,
    pending: map<nat, seq<Address>>,
    staking: set<Address>,
    spawned: seq<Address>,
    balances: map<(Address, Address), int>,
    rows: seq<Row>,
    funding: map<FundingKey, FundingEvent>,
    daily: map<(nat, nat), Daily>)

  const EMPTY_STATE := State(map[], map[], map[], map[], map[], {}, [], map[], [], map[], map[])
  const NEW_SERVICE := Service([], None, None, 0)

  /** Per-network contract addresses. */
  datatype Config = Config(olas: Address, srtu: Address, registry: Address)

  datatype Header = Header(tx: TxHash, logIndex: I32, time: nat)

  /**
   The indexed events. `probe` is what `try_getOwners` answers (None: reverted);
   `accepted` says the proxy's implementation is allowed and its config calls answered.
   */
  datatype Event =
    | Erc20Transfer(h: Header, token: Address, from: Address, to: Address, amount: nat)
    | NativeReceived(h: Header, safe: Address, sender: Address, amount: nat)
    | BondDeposit(h: Header, account: Address, token: Address, amount: nat)
    | BondRefund(h: Header, account: Address, token: Address, amount: nat)
    | InstanceRegistered(h: Header, sid: nat, operator: Address)
    | MultisigCreated(h: Header, sid: nat, multisig: Address)
    | NftMoved(h: Header, sid: nat, recipient: Address, probe: Option<seq<Address>>)
    | Terminated(h: Header, sid: nat)
    | Staked(h: Header, sid: nat, owner: Address, multisig: Address, probe: Option<seq<Address>>)
    | RewardClaimed(h: Header, proxy: Address, sid: nat, owner: Address, multisig: Address, reward: nat)
    | Unstaked(h: Header, proxy: Address, sid: nat, owner: Address, multisig: Address, reward: nat)
    | Evicted(h: Header, proxy: Address, sids: seq<nat>, owners: seq<Address>, multisigs: seq<Address>)
    | ProxyCreated(h: Header, proxy: Address, accepted: bool)
    | OwnerAdded(h: Header, safe: Address, owner: Address)
    | OwnerRemoved(h: Header, safe: Address, owner: Address)

  // ----- discovery ---------------------------------------------------------

  function Upsert(t: Roles, a: Address, v: Tracked): (r: Roles)
    ensures r.Keys == t.Keys + {a}
    ensures r[a] == if a in t then t[a] else v
    ensures forall x :: x in t ==> r[x] == t[x]
  {
    if a in t then t else t[a := v]
  }

  /** Every operator but the service's own Master Safe, as long as it is not tracked yet. */
  function UpsertOperators(t: Roles, operators: seq<Address>, skip: Address, v: Tracked): (r: Roles)
    ensures forall x :: x in r <==> x in t || (x in operators && x != skip)
    ensures forall x :: x in r ==> r[x] == if x in t then t[x] else v
  {
    if operators == [] then t
    else
      var n := |operators| - 1;
      var t' := UpsertOperators(t, operators[..n], skip, v);
      if operators[n] == skip then t' else Upsert(t', operators[n], v)
  }

  function DeployedRow(safe: Address): Row {
    Row(SafeDeployedRow(safe), SafeDeployed, Semantic, None, Some(safe), None, None, 0, ZERO_ADDRESS, safe, None)
  }

  predicate IsSafe(probe: Option<seq<Address>>) {
    probe.Some? && probe.value != []
  }

  function TrackMaster(t: map<Address, Tracked>, a: Address, eoa: Address): map<Address, Tracked> {
    var t' := Upsert(t, a, Tracked(Master, Some(a), None));
    if eoa == ZERO_ADDRESS then t' else Upsert(t', eoa, Tracked(MasterEoa, Some(a), None))
  }

  function TrackAgent(t: map<Address, Tracked>, a: Address, sid: nat, svc: Service): map<Address, Tracked> {
    if svc.masterSafe.None? then t
    else UpsertOperators(Upsert(t, a, Tracked(Agent, svc.masterSafe, Some(sid))),
                         svc.operators, svc.masterSafe.value, Tracked(AgentEoa, svc.masterSafe, Some(sid)))
  }

  /** `getOrCreateMasterSafe`: it answers non-null exactly when `a` is in the resulting `masters`. */
  function DiscoverMaster(s: State, a: Address, probe: Option<seq<Address>>): State {
    if a in s.masters || !IsSafe(probe) then s
    else
      s.(masters := s.masters[a := MasterSafe(probe.value[0], probe.value, false)],
         rows := s.rows + [DeployedRow(a)],
         tracked := TrackMaster(s.tracked, a, probe.value[0]),
         spawned := if a in s.agents then s.spawned else s.spawned + [a])
  }

  /** `getOrCreateAgentSafe`, given the service as it stands in memory. */
  function DiscoverAgent(s: State, a: Address, sid: nat, svc: Service): State {
    if a in s.agents then s
    else
      s.(agents := s.agents[a := AgentSafe(sid, svc.masterSafe)],
         tracked := TrackAgent(s.tracked, a, sid, svc),
         spawned := if a in s.masters then s.spawned else s.spawned + [a])
  }

  function ServiceOf(s: State, sid: nat): Service {
    if sid in s.services then s.services[sid] else NEW_SERVICE
  }

  function SaveService(s: State, sid: nat, svc: Service): State {
    s.(services := s.services[sid := svc])
  }

  function PendingOf(s: State, sid: nat): seq<Address> {
    if sid in s.pending then s.pending[sid] else []
  }

  function SavePending(s: State, sid: nat, operators: seq<Address>): State {
    s.(pending := s.pending[sid := operators])
  }

  function AppendRow(s: State, row: Row): State {
    s.(rows := s.rows + [row])
  }

  function RegisterInstance(s: State, sid: nat, operator: Address): State {
    if sid in s.services then
      SaveService(s, sid, s.services[sid].(operators := AddOnce(s.services[sid].operators, operator)))
    else SavePending(s, sid, AddOnce(PendingOf(s, sid), operator))
  }

  function CreateMultisig(s: State, sid: nat, multisig: Address): State {
    var svc := ServiceOf(s, sid).(operators := Merge(ServiceOf(s, sid).operators, PendingOf(s, sid)));
    SaveService(DiscoverAgent(s, multisig, sid, svc), sid, svc.(agentSafe := Some(multisig)))
  }

  function MoveNft(s: State, sid: nat, recipient: Address, probe: Option<seq<Address>>): State {
    var svc := ServiceOf(s, sid);
    if recipient == ZERO_ADDRESS || recipient in s.staking then SaveService(s, sid, svc)
    else
      var s' := DiscoverMaster(s, recipient, probe);
      SaveService(s', sid, if recipient in s'.masters then svc.(masterSafe := Some(recipient)) else svc)
  }

  function Stake(s: State, sid: nat, owner: Address, multisig: Address, probe: Option<seq<Address>>): State {
    var s' := DiscoverMaster(s, owner, probe);
    var svc := if owner in s'.masters then ServiceOf(s, sid).(masterSafe := Some(owner)) else ServiceOf(s, sid);
    SaveService(DiscoverAgent(s', multisig, sid, svc), sid, svc.(agentSafe := Some(multisig)))
  }

  // ----- classification ----------------------------------------------------

  /** `sender` is set only for Master Safe to Master Safe transfers. */
  datatype Classification = Classification(
    category: Category,
    service: Option<nat>,
    masterSafe: Option<Address>,
    agentSafe: Option<Address>,
    sender: Option<Address>)

  predicate Has(t: map<Address, Tracked>, a: Address, role: Role) {
    a in t && t[a].role == role
  }

  function Classify(cfg: Config, s: State, from: Address, to: Address): Option<Classification> {
    var t := s.tracked;
    if from !in t && to !in t && from != cfg.srtu && to != cfg.srtu then None
    else if Has(t, from, Master) && to == cfg.srtu then None
    else if from == cfg.srtu && Has(t, to, Master) then None
    else if Has(t, from, Master) && (Has(t, to, Agent) || Has(t, to, AgentEoa)) then
      Some(Classification(MasterToAgent, t[to].service, t[from].masterSafe, if Has(t, to, Agent) then Some(to)
          else None, None))
    else if Has(t, from, Agent) && Has(t, to, Master) then
      Some(Classification(AgentToMaster, t[from].service, Some(to), Some(from), None))
    else if Has(t, from, Staking) && Has(t, to, Agent) then
      Some(Classification(StakingRewardClaim, t[to].service, t[to].masterSafe, Some(to), None))
    else if Has(t, to, Master) then
      if from == cfg.registry then Some(Classification(Other, None, Some(to), None, None))
      else if Has(t, from, MasterEoa) && to in s.masters && !s.masters[to].setupSeen then
        Some(Classification(SafeSetupTransfer, None, Some(to), None, None))
      else
        Some(Classification(MasterFundingIn, None, Some(to), None, if Has(t, from, Master) then Some(from) else None))
    else if Has(t, from, Master) then
      Some(Classification(MasterWithdrawal, None, Some(from), None, None))
    else if Has(t, from, Agent) then
      Some(Classification(AgentToApp, t[from].service, t[from].masterSafe, Some(from), None))
    else if Has(t, to, Agent) then
      Some(Classification(AppToAgent, t[to].service, t[to].masterSafe, Some(to), None))
    else
      var ref :=
        if from in t && t[from].masterSafe.Some? then t[from].masterSafe
        else if to in t then t[to].masterSafe else None;
      Some(Classification(Other, None, ref, None, None))
  }

  // ----- transfers ---------------------------------------------------------

  /** Master Safe and SRTU legs, which the bond handlers book instead. */
  predicate Suppressed(cfg: Config, t: map<Address, Tracked>, from: Address, to: Address) {
    (Has(t, from, Master) && to == cfg.srtu) || (from == cfg.srtu && Has(t, to, Master))
  }

  /** The pairs whose recipient's balance goes up. */
  predicate Credits(cfg: Config, t: map<Address, Tracked>, from: Address, to: Address) {
    !Suppressed(cfg, t, from, to) &&
    ( || (Has(t, to, Master) && (Has(t, from, Agent) || from != cfg.registry))
      || (Has(t, to, Agent) && !Has(t, from, Agent))
      || (Has(t, to, AgentEoa) && Has(t, from, Master)))
  }

  /** The pairs whose sender's balance goes down. */
  predicate Debits(cfg: Config, t: map<Address, Tracked>, from: Address, to: Address) {
    !Suppressed(cfg, t, from, to) &&
    ( || Has(t, from, Agent)
      || (Has(t, from, Master) && !(Has(t, to, Master) && from == cfg.registry)))
  }

  function BalanceOf(b: map<(Address, Address), int>, a: Address, token: Address): int {
    if (a, token) in b then b[(a, token)] else 0
  }

  function Bump(b: map<(Address, Address), int>, a: Address, token: Address, delta: int): map<(Address, Address), int> {
    b[(a, token) := BalanceOf(b, a, token) + delta]
  }

  function FundingOf(f: map<FundingKey, FundingEvent>, k: FundingKey): FundingEvent {
    if k in f then f[k] else FundingEvent(0, 0)
  }

  function MarkSetupSeen(m: map<Address, MasterSafe>, a: Address): map<Address, MasterSafe> {
    if a in m then m[a := m[a].(setupSeen := true)] else m
  }

  /** The AgentFundingEvent a classified transfer belongs to, if any. */
  function FundingLink(c: Classification, tx: TxHash): Option<FundingKey> {
    if c.category == MasterToAgent && c.masterSafe.Some? && c.service.Some?
    then Some(FundingKey(tx, c.masterSafe.value, c.service.value)) else None
  }

  function CategoryFor(cfg: Config, c: Classification, token: Option<Address>): Category {
    if c.category == AgentToMaster && token == Some(cfg.olas) then AgentOlasToMaster else c.category
  }

  function TransferRow(cfg: Config, h: Header, c: Classification, token: Option<Address>,
                       from: Address, to: Address, amount: nat): Row
  {
    Row(EventRow(h.tx, h.logIndex), CategoryFor(cfg, c, token), RawTransfer, c.service, c.masterSafe, c.agentSafe,
        token, amount, from, to, FundingLink(c, h.tx))
  }

  function AddFunding(cfg: Config, f: FundingEvent, token: Option<Address>, amount: nat): FundingEvent {
    if token.None? then f.(native := f.native + amount)
    else if token == Some(cfg.olas) then f.(olas := f.olas + amount)
    else f
  }

  /** Row, setup flag and funding group of a classified transfer; `token` is None for the native coin. */
  function Book(cfg: Config, s: State, h: Header, c: Classification, token: Option<Address>,
                from: Address, to: Address, amount: nat): State
  {
    var link := FundingLink(c, h.tx);
    s.(rows := s.rows + [TransferRow(cfg, h, c, token, from, to, amount)],
       masters := if c.category == SafeSetupTransfer
           && c.masterSafe.Some? then MarkSetupSeen(s.masters, c.masterSafe.value) else s.masters,
       funding :=
         if link.None? then s.funding
         else s.funding[link.value := AddFunding(cfg, FundingOf(s.funding, link.value), token, amount)])
  }

  function TransferBalances(cfg: Config, s: State, token: Address, from: Address, to: Address, amount: nat)
    : map<(Address, Address), int>
  {
    var b := if Credits(cfg, s.tracked, from, to) then Bump(s.balances, to, token, amount) else s.balances;
    if Debits(cfg, s.tracked, from, to) then Bump(b, from, token, 0 - amount) else b
  }

  function TransferErc20(cfg: Config, s: State, h: Header, token: Address, from: Address, to: Address,
                         amount: nat): State {
    match Classify(cfg, s, from, to)
    case None => s
    case Some(c) =>
      Book(cfg, s, h, c, Some(token), from, to, amount).(balances := TransferBalances(cfg, s, token, from, to, amount))
  }

  function ReceiveNative(cfg: Config, s: State, h: Header, safe: Address, sender: Address, amount: nat): State {
    match Classify(cfg, s, sender, safe)
    case None => s
    case Some(c) => Book(cfg, s, h, c, None, sender, safe, amount)
  }

  /** The balance half of `handleTokenDeposit` (delta negative) and `handleTokenRefund`. */
  function MoveBond(s: State, account: Address, token: Address, delta: int): State {
    if Has(s.tracked, account, Master) then s.(balances := Bump(s.balances, account, token, delta)) else s
  }

  // ----- staking rewards ---------------------------------------------------

  function StakingRow(key: RowKey, category: Category, sid: nat, svc: Service, owner: Address, multisig: Address,
                      token: Option<Address>, amount: nat, proxy: Address): Row {
    Row(key, category, Semantic, Some(sid),
        if svc.masterSafe.Some? then svc.masterSafe else Some(owner),
        if svc.agentSafe.Some? then svc.agentSafe else Some(multisig),
        token, amount, proxy, multisig, None)
  }

  /** `addDailyOlasReward` followed by the save of the service. */
  function AddReward(s: State, sid: nat, amount: nat, time: nat): State {
    var svc := ServiceOf(s, sid);
    var k := (sid, DayStart(time));
    var claimed := if k in s.daily then s.daily[k].claimed else 0;
    s.(daily := s.daily[k := Daily(claimed + amount, svc.totalClaimed + amount)],
       services := s.services[sid := svc.(totalClaimed := svc.totalClaimed + amount)])
  }

  function ClaimReward(cfg: Config, s: State, h: Header, proxy: Address, sid: nat, owner: Address, multisig: Address,
                       reward: nat): State {
    var row := StakingRow(EventRow(h.tx, h.logIndex), StakingRewardClaim, sid, ServiceOf(s, sid), owner, multisig,
                          Some(cfg.olas), reward, proxy);
    AddReward(AppendRow(s, row), sid, reward, h.time)
  }

  function Unstake(cfg: Config, s: State, h: Header, proxy: Address, sid: nat, owner: Address, multisig: Address,
                   reward: nat): State {
    var row := StakingRow(EventRow(h.tx, h.logIndex), UnstakeReward, sid, ServiceOf(s, sid), owner, multisig,
                          Some(cfg.olas), reward, proxy);
    var s' := SaveService(AppendRow(s, row), sid, ServiceOf(s, sid));
    if reward > 0 then AddReward(s', sid, reward, h.time) else s'
  }

  /** One row per evicted slot; a missing owner or multisig is the zero address. */
  function EvictedRowAt(s: State, h: Header, proxy: Address, sids: seq<nat>, owners: seq<Address>,
                        multisigs: seq<Address>, i: I32): Row
    requires 0 <= i < |sids|
  {
    StakingRow(EvictedRow(h.tx, h.logIndex, i), ServiceEvicted, sids[i], ServiceOf(s, sids[i]),
               if i < |owners| then owners[i] else ZERO_ADDRESS,
               if i < |multisigs| then multisigs[i] else ZERO_ADDRESS,
               None, 0, proxy)
  }

  /** The length of a Solidity array argument fits the i32 loop counter. */
  predicate Fits(n: nat) {
    n < 0x8000_0000
  }

  function Evict(s: State, h: Header, proxy: Address, sids: seq<nat>, owners: seq<Address>,
                 multisigs: seq<Address>): State
    requires Fits(|sids|)
  {
    s.(rows := s.rows + seq(|sids|,
                            i requires 0 <= i < |sids| => EvictedRowAt(s, h, proxy, sids, owners, multisigs, i)),
       services := (map sid | sid in sids :: NEW_SERVICE) + s.services)
  }

  // ----- the remaining handlers --------------------------------------------

  function CreateProxy(s: State, proxy: Address, accepted: bool): State {
    if !accepted then s
    else s.(staking := s.staking + {proxy}, tracked := Upsert(s.tracked, proxy, Tracked(Staking, None, None)))
  }

  function AddOwner(s: State, safe: Address, owner: Address): State {
    if safe !in s.masters then s
    else s.(masters := s.masters[safe := s.masters[safe].(owners := AddOnce(s.masters[safe].owners, owner))])
  }

  function Without(s: seq<Address>, x: Address): seq<Address> {
    if s == [] then []
    else if s[|s| - 1] == x then Without(s[..|s| - 1], x)
    else Without(s[..|s| - 1], x) + [s[|s| - 1]]
  }

  function RemoveOwner(s: State, safe: Address, owner: Address): State {
    if safe !in s.masters then s
    else
      var m := s.masters[safe];
      var left := Without(m.owners, owner);
      s.(masters := s.masters[safe :=
           m.(owners := left, masterEoa := if left != [] && m.masterEoa == owner then left[0] else m.masterEoa)])
  }

  predicate WellFormed(e: Event) {
    e.Evicted? ==> Fits(|e.sids|)
  }

  predicate IsDiscovery(e: Event) {
    || e.InstanceRegistered? || e.MultisigCreated? || e.NftMoved? || e.Terminated? || e.Staked?
    || e.ProxyCreated? || e.OwnerAdded? || e.OwnerRemoved?
  }

  function StepDiscovery(s: State, e: Event): State
    requires IsDiscovery(e)
  {
    match e
    case InstanceRegistered(_, sid, operator) => RegisterInstance(s, sid, operator)
    case MultisigCreated(_, sid, multisig) => CreateMultisig(s, sid, multisig)
    case NftMoved(_, sid, recipient, probe) => MoveNft(s, sid, recipient, probe)
    case Terminated(_, sid) => SaveService(s, sid, ServiceOf(s, sid))
    case Staked(_, sid, owner, multisig, probe) => Stake(s, sid, owner, multisig, probe)
    case ProxyCreated(_, proxy, accepted) => CreateProxy(s, proxy, accepted)
    case OwnerAdded(_, safe, owner) => AddOwner(s, safe, owner)
    case OwnerRemoved(_, safe, owner) => RemoveOwner(s, safe, owner)
  }

  function StepFunds(cfg: Config, s: State, e: Event): State
    requires !IsDiscovery(e) && WellFormed(e)
  {
    match e
    case Erc20Transfer(h, token, from, to, amount) => TransferErc20(cfg, s, h, token, from, to, amount)
    case NativeReceived(h, safe, sender, amount) => ReceiveNative(cfg, s, h, safe, sender, amount)
    case BondDeposit(_, account, token, amount) => MoveBond(s, account, token, 0 - amount)
    case BondRefund(_, account, token, amount) => MoveBond(s, account, token, amount)
    case RewardClaimed(h, proxy, sid, owner, multisig, reward) =>
      ClaimReward(cfg, s, h, proxy, sid, owner, multisig, reward)
    case Unstaked(h, proxy, sid, owner, multisig, reward) => Unstake(cfg, s, h, proxy, sid, owner, multisig, reward)
    case Evicted(h, proxy, sids, owners, multisigs) => Evict(s, h, proxy, sids, owners, multisigs)
  }

  function Step(cfg: Config, s: State, e: Event): State
    requires WellFormed(e)
  {
    if IsDiscovery(e) then StepDiscovery(s, e) else StepFunds(cfg, s, e)
  }

  type Trace = es: seq<Event> | forall e :: e in es ==> WellFormed(e)

  /** The state after all events of a trace, from the empty store. */
  function Run(cfg: Config, es: Trace): State {
    if es == [] then EMPTY_STATE else Step(cfg, Run(cfg, es[..|es| - 1]), es[|es| - 1])
  }
}
