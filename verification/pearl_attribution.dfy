/**
 The bond queue and the ledger tables together: which service, Master Safe and Agent Safe a BondMovement ends
 with, in runs that interleave all handlers.
 */
module PearlAttribution {
  import opened Collections
  import opened PearlIds
  import opened PearlState
  import opened PearlFrames
  import opened PearlInvariants
  import PearlBonds

  /** ActivateRegistration and OperatorUnbond touch nothing but the queue. */
  datatype JointEvent =
    | Ledger(e: Event)
    | Activated(h: Header, sid: nat)
    | Unbonded(h: Header, sid: nat)

  type JointTrace = es: seq<JointEvent> | forall e :: e in es && e.Ledger? ==> WellFormed(e.e)

  function HeaderOf(e: JointEvent): Header {
    match e
    case Ledger(x) => x.h
    case Activated(h, _) => h
    case Unbonded(h, _) => h
  }

  function LedgerOf(es: JointTrace): Trace {
    if es == [] then []
    else LedgerOf(es[..|es| - 1]) + (if es[|es| - 1].Ledger? then [es[|es| - 1].e] else [])
  }

  /** The ledger tables after the first `n` events. */
  function TablesAt(cfg: Config, es: JointTrace, n: nat): State
    requires n <= |es|
  {
    Run(cfg, LedgerOf(es[..n]))
  }

  /** The Service entity as a consumer loads it. */
  function LinksOf(s: State, sid: nat): Option<PearlBonds.ServiceLinks> {
    if sid in s.services then Some(PearlBonds.ServiceLinks(s.services[sid].masterSafe, s.services[sid].agentSafe))
        else None
  }

  /** What the SRTU handlers stamp a new row with. */
  function StampOf(s: State, account: Address): Option<Address> {
    if Has(s.tracked, account, Master) then s.tracked[account].masterSafe else None
  }

  function EnqueueOf(s: State, h: Header, account: Address): PearlBonds.Event {
    PearlBonds.Enqueue(h.tx, RowId(EventRow(h.tx, h.logIndex)), StampOf(s, account))
  }

  /** The service and bond type a registry event attributes, and whether it is guarded. */
  function Asks(e: JointEvent): Option<(nat, PearlBonds.BondType, bool)> {
    match e
    case Ledger(InstanceRegistered(_, sid, _)) => Some((sid, PearlBonds.AgentBond, true))
    case Ledger(Terminated(_, sid)) => Some((sid, PearlBonds.SecurityDeposit, false))
    case Activated(_, sid) => Some((sid, PearlBonds.SecurityDeposit, false))
    case Unbonded(_, sid) => Some((sid, PearlBonds.AgentBond, false))
    case _ => None
  }

  /** What an event does to the queue: producers read the tables before it, consumers the Service it has just saved. */
  function QueueEvent(before: State, after: State, e: JointEvent): Option<PearlBonds.Event> {
    match e
    case Ledger(BondDeposit(h, account, _, _)) => Some(EnqueueOf(before, h, account))
    case Ledger(BondRefund(h, account, _, _)) => Some(EnqueueOf(before, h, account))
    case _ =>
      match Asks(e)
      case None => None
      case Some(ask) =>
        Some(PearlBonds.Dequeue(HeaderOf(e).tx, PearlBonds.Request(ask.0, ask.1, LinksOf(after, ask.0), ask.2)))
  }

  /** What the i-th event of a run does to the queue. */
  function QueueEventAt(cfg: Config, es: JointTrace, i: nat): Option<PearlBonds.Event>
    requires i < |es|
  {
    QueueEvent(TablesAt(cfg, es, i), TablesAt(cfg, es, i + 1), es[i])
  }

  function QueueEvents(cfg: Config, es: JointTrace): seq<Option<PearlBonds.Event>> {
    seq(|es|, i requires 0 <= i < |es| => QueueEventAt(cfg, es, i))
  }

  function Compact(qs: seq<Option<PearlBonds.Event>>): seq<PearlBonds.Event> {
    if qs == [] then []
    else Compact(qs[..|qs| - 1]) + (if qs[|qs| - 1].Some? then [qs[|qs| - 1].value] else [])
  }

  /** The queue's own view of a run. */
  function QueueRun(cfg: Config, es: JointTrace): seq<PearlBonds.Event> {
    Compact(QueueEvents(cfg, es))
  }

  /** BondMovement rows after a run. */
  function Movements(cfg: Config, es: JointTrace): map<Bytes, PearlBonds.Movement> {
    PearlBonds.Run(QueueRun(cfg, es)).movements
  }

  /** The rows appended in a transaction and the requests served there. */
  function RowsOf(cfg: Config, es: JointTrace, tx: TxHash): seq<Bytes> {
    PearlBonds.Appended(QueueRun(cfg, es), tx)
  }

  function RequestsOf(cfg: Config, es: JointTrace, tx: TxHash): seq<PearlBonds.Request> {
    PearlBonds.Served(QueueRun(cfg, es), tx)
  }

  ghost predicate DistinctLogs(es: JointTrace) {
    forall i, j :: 0 <= i < j < |es| ==>
      HeaderOf(es[i]).tx != HeaderOf(es[j]).tx || HeaderOf(es[i]).logIndex != HeaderOf(es[j]).logIndex
  }

  // ----- where the entries of a queue come from ----------------------------

  lemma {:induction false} ServedFrom(qs: seq<Option<PearlBonds.Event>>, tx: TxHash, j: nat) returns (i: nat)
    requires j < |PearlBonds.Served(Compact(qs), tx)|
    ensures i < |qs| && qs[i] == Some(PearlBonds.Dequeue(tx, PearlBonds.Served(Compact(qs), tx)[j]))
  {
    var init, last, q := qs[..|qs| - 1], qs[|qs| - 1], Compact(qs);
    if last.None? {
      assert q == Compact(init);
      i := ServedFrom(init, tx, j);
    } else {
      assert q[..|q| - 1] == Compact(init) && q[|q| - 1] == last.value;
      if j < |PearlBonds.Served(Compact(init), tx)| {
        i := ServedFrom(init, tx, j);
        assert qs[i] == init[i];
      } else {
        i := |qs| - 1;
      }
    }
  }

  lemma {:induction false} AppendedFrom(qs: seq<Option<PearlBonds.Event>>, tx: TxHash, j: nat) returns (i: nat)
    requires j < |PearlBonds.Appended(Compact(qs), tx)|
    ensures i < |qs| && qs[i]
        == Some(PearlBonds.Enqueue(tx, PearlBonds.Appended(Compact(qs), tx)[j], PearlBonds.Stamped(Compact(qs), tx)[j]))
  {
    var init, last, q := qs[..|qs| - 1], qs[|qs| - 1], Compact(qs);
    if last.None? {
      assert q == Compact(init);
      i := AppendedFrom(init, tx, j);
    } else {
      assert q[..|q| - 1] == Compact(init) && q[|q| - 1] == last.value;
      if j < |PearlBonds.Appended(Compact(init), tx)| {
        i := AppendedFrom(init, tx, j);
        assert qs[i] == init[i];
      } else {
        i := |qs| - 1;
      }
    }
  }

  lemma {:induction false} CompactFrom(qs: seq<Option<PearlBonds.Event>>, k: nat) returns (i: nat)
    requires k < |Compact(qs)|
    ensures i < |qs| && qs[i] == Some(Compact(qs)[k]) && |Compact(qs[..i])| == k
  {
    var init := qs[..|qs| - 1];
    if k < |Compact(init)| {
      i := CompactFrom(init, k);
      assert init[..i] == qs[..i];
    } else {
      i := |qs| - 1;
    }
  }

  /** The i-th event enqueues a row. */
  predicate Enqueues(qs: seq<Option<PearlBonds.Event>>, i: int) {
    0 <= i < |qs| && qs[i].Some? && qs[i].value.Enqueue?
  }

  lemma CompactKeepsDistinct(qs: seq<Option<PearlBonds.Event>>)
    requires forall i, j :: Enqueues(qs, i) && Enqueues(qs, j) && i != j ==> qs[i].value.id != qs[j].value.id
    ensures PearlBonds.DistinctRows(Compact(qs))
  {
    var q := Compact(qs);
    forall k, l | 0 <= k < l < |q| && q[k].Enqueue? && q[l].Enqueue? ensures q[k].id != q[l].id {
      var i := CompactFrom(qs, k);
      var j := CompactFrom(qs, l);
      assert Enqueues(qs, i) && Enqueues(qs, j);
    }
  }

  lemma EnqueueIds(cfg: Config, es: JointTrace, i: nat)
    requires i < |es|
    ensures var q := QueueEventAt(cfg, es, i);
            q.Some? && q.value.Enqueue? ==> q.value.id == RowId(EventRow(HeaderOf(es[i]).tx, HeaderOf(es[i]).logIndex))
  {
  }

  lemma RowsAreDistinct(cfg: Config, es: JointTrace)
    requires DistinctLogs(es)
    ensures PearlBonds.DistinctRows(QueueRun(cfg, es))
  {
    var qs := QueueEvents(cfg, es);
    forall i, j | Enqueues(qs, i) && Enqueues(qs, j) && i != j
      ensures qs[i].value.id != qs[j].value.id
    {
      EnqueueIds(cfg, es, i);
      EnqueueIds(cfg, es, j);
      RowIdInjective(EventRow(HeaderOf(es[i]).tx, HeaderOf(es[i]).logIndex),
                     EventRow(HeaderOf(es[j]).tx, HeaderOf(es[j]).logIndex));
    }
    CompactKeepsDistinct(qs);
  }

  // ----- what a BondMovement ends with -------------------------------------

  /** The event books a bond row of the transaction. */
  predicate Produces(e: JointEvent, tx: TxHash, id: Bytes) {
    && e.Ledger? && (e.e.BondDeposit? || e.e.BondRefund?)
    && e.e.h.tx == tx && id == RowId(EventRow(tx, e.e.h.logIndex))
  }

  /** The row names what the Service entity linked when the event asked for it. */
  predicate NamesLinks(m: PearlBonds.Movement, s: State, sid: nat, stamp: Option<Address>) {
    var links := LinksOf(s, sid);
    && m.masterSafe == (if stamp.None? && links.Some? then links.value.masterSafe else stamp)
    && m.agentSafe == (if links.Some? then links.value.agentSafe else None)
  }

  lemma ProducerOf(cfg: Config, es: JointTrace, tx: TxHash, j: nat) returns (i: nat)
    requires j < |RowsOf(cfg, es, tx)|
    ensures i < |es| && Produces(es[i], tx, RowsOf(cfg, es, tx)[j])
    ensures PearlBonds.Stamped(QueueRun(cfg, es), tx)[j] == StampOf(TablesAt(cfg, es, i), es[i].e.account)
  {
    i := AppendedFrom(QueueEvents(cfg, es), tx, j);
    assert QueueEventAt(cfg, es, i)
        == Some(PearlBonds.Enqueue(tx, RowsOf(cfg, es, tx)[j], PearlBonds.Stamped(QueueRun(cfg, es), tx)[j]));
  }

  lemma ConsumerOf(cfg: Config, es: JointTrace, tx: TxHash, j: nat) returns (k: nat)
    requires j < |RequestsOf(cfg, es, tx)|
    ensures var req := RequestsOf(cfg, es, tx)[j];
            && k < |es| && HeaderOf(es[k]).tx == tx && Asks(es[k]) == Some((req.sid, req.bondType, req.once))
            && req.links == LinksOf(TablesAt(cfg, es, k + 1), req.sid)
  {
    k := ServedFrom(QueueEvents(cfg, es), tx, j);
    assert QueueEventAt(cfg, es, k) == Some(PearlBonds.Dequeue(tx, RequestsOf(cfg, es, tx)[j]));
  }

  /** What the j-th bond row of a transaction carries, given the events that produced and attributed it. */
  ghost predicate EndsWith(cfg: Config, es: JointTrace, tx: TxHash, j: nat, i: nat, k: nat)
    requires j < |RowsOf(cfg, es, tx)|
  {
    && i < |es| && Produces(es[i], tx, RowsOf(cfg, es, tx)[j]) && RowsOf(cfg, es, tx)[j] in Movements(cfg, es)
    && k < |es| && HeaderOf(es[k]).tx == tx && Asks(es[k]).Some?
    && var m, ask := Movements(cfg, es)[RowsOf(cfg, es, tx)[j]], Asks(es[k]).value;
       && m.service == Some(ask.0) && m.bondType == Some(ask.1)
       && NamesLinks(m, TablesAt(cfg, es, k + 1), ask.0, StampOf(TablesAt(cfg, es, i), es[i].e.account))
  }

  /**
   The j-th bond row of a transaction, once j + 1 requests were served there: produced by one SRTU event and
   attributed by one registry event of the transaction, it carries that event's service and bond type, the Master
   Safe that paid (or else the service's), and the Agent Safe the service had right after that event.
   */
  lemma AttributedBondEndsWith(cfg: Config, es: JointTrace, tx: TxHash, j: nat) returns (i: nat, k: nat)
    requires DistinctLogs(es) && j < |RequestsOf(cfg, es, tx)|
    ensures j < |RowsOf(cfg, es, tx)| && EndsWith(cfg, es, tx, j, i, k)
  {
    RowsAreDistinct(cfg, es);
    PearlBonds.QueueCounts(QueueRun(cfg, es), tx);
    PearlBonds.AttributionIsFifo(QueueRun(cfg, es), tx, j);
    i := ProducerOf(cfg, es, tx, j);
    k := ConsumerOf(cfg, es, tx, j);
  }

  /** A bond row that no request reached carries its stamp and nothing else. */
  lemma OpenBondCarriesStamp(cfg: Config, es: JointTrace, tx: TxHash, j: nat) returns (i: nat)
    requires DistinctLogs(es) && |RequestsOf(cfg, es, tx)| <= j < |RowsOf(cfg, es, tx)|
    ensures var id := RowsOf(cfg, es, tx)[j];
            && i < |es| && Produces(es[i], tx, id) && id in Movements(cfg, es)
            && Movements(cfg, es)[id]
                == PearlBonds.Movement(None, None, StampOf(TablesAt(cfg, es, i), es[i].e.account), None)
  {
    RowsAreDistinct(cfg, es);
    PearlBonds.AttributionIsFifo(QueueRun(cfg, es), tx, j);
    i := ProducerOf(cfg, es, tx, j);
  }

  // ----- the links lead to stored safes ------------------------------------

  /** Every Agent Safe a service names is stored. */
  ghost predicate AgentSafesStored(s: State) {
    forall sid :: sid in s.services && s.services[sid].agentSafe.Some? ==> s.services[sid].agentSafe.value in s.agents
  }

  /** One service row is saved, naming no Agent Safe that is not stored. */
  ghost predicate SavesStored(s: State, s': State, sid: nat) {
    && s.agents.Keys <= s'.agents.Keys && sid in s'.services && s'.services == s.services[sid := s'.services[sid]]
    && (s'.services[sid].agentSafe.Some?
        ==> s'.services[sid].agentSafe == ServiceOf(s, sid).agentSafe || s'.services[sid].agentSafe.value in s'.agents)
  }

  lemma SaveKeepsStored(s: State, s': State, sid: nat)
    requires AgentSafesStored(s) && SavesStored(s, s', sid)
    ensures AgentSafesStored(s')
  {
  }

  lemma MultisigSaves(s: State, sid: nat, multisig: Address)
    ensures SavesStored(s, CreateMultisig(s, sid, multisig), sid)
  {
    var svc := ServiceOf(s, sid).(operators := Merge(ServiceOf(s, sid).operators, PendingOf(s, sid)));
    var d := DiscoverAgent(s, multisig, sid, svc);
    assert d.services == s.services && d.agents.Keys == s.agents.Keys + {multisig};
  }

  lemma DiscoverMasterLeaves(s: State, a: Address, probe: Option<seq<Address>>)
    ensures DiscoverMaster(s, a, probe).services == s.services && DiscoverMaster(s, a, probe).agents == s.agents
  {
  }

  lemma StakeSaves(s: State, sid: nat, owner: Address, multisig: Address, probe: Option<seq<Address>>)
    ensures SavesStored(s, Stake(s, sid, owner, multisig, probe), sid)
  {
    var m, svc := DiscoverMaster(s, owner, probe), StakedService(s, sid, owner, probe);
    DiscoverMasterLeaves(s, owner, probe);
    var d := DiscoverAgent(m, multisig, sid, svc);
    assert d.services == s.services && d.agents.Keys == s.agents.Keys + {multisig};
    assert Stake(s, sid, owner, multisig, probe) == SaveService(d, sid, svc.(agentSafe := Some(multisig)));
  }

  lemma NftSaves(s: State, sid: nat, recipient: Address, probe: Option<seq<Address>>)
    ensures SavesStored(s, MoveNft(s, sid, recipient, probe), sid)
  {
    var s', svc, d := MoveNft(s, sid, recipient, probe), ServiceOf(s, sid), DiscoverMaster(s, recipient, probe);
    DiscoverMasterLeaves(s, recipient, probe);
    if recipient == ZERO_ADDRESS || recipient in s.staking {
      assert s' == SaveService(s, sid, svc);
    } else if recipient in d.masters {
      assert s' == SaveService(d, sid, svc.(masterSafe := Some(recipient)));
    } else {
      assert s' == SaveService(d, sid, svc);
    }
  }

  lemma DiscoveryKeepsStored(s: State, e: Event)
    requires AgentSafesStored(s) && IsDiscovery(e)
    ensures AgentSafesStored(StepDiscovery(s, e))
  {
    if e.MultisigCreated? {
      MultisigSaves(s, e.sid, e.multisig);
      SaveKeepsStored(s, CreateMultisig(s, e.sid, e.multisig), e.sid);
    } else if e.Staked? {
      StakeSaves(s, e.sid, e.owner, e.multisig, e.probe);
      SaveKeepsStored(s, Stake(s, e.sid, e.owner, e.multisig, e.probe), e.sid);
    } else if e.NftMoved? {
      NftSaves(s, e.sid, e.recipient, e.probe);
      SaveKeepsStored(s, MoveNft(s, e.sid, e.recipient, e.probe), e.sid);
    } else if e.Terminated? {
      SaveKeepsStored(s, SaveService(s, e.sid, ServiceOf(s, e.sid)), e.sid);
    } else if e.InstanceRegistered? {
      RegisterKeepsStored(s, e.sid, e.operator);
    }
  }

  lemma RegisterKeepsStored(s: State, sid: nat, operator: Address)
    requires AgentSafesStored(s)
    ensures AgentSafesStored(RegisterInstance(s, sid, operator))
  {
    if sid in s.services {
      SaveKeepsStored(s, RegisterInstance(s, sid, operator), sid);
    }
  }

  lemma FundsKeepStored(cfg: Config, s: State, e: Event)
    requires AgentSafesStored(s) && !IsDiscovery(e) && WellFormed(e)
    ensures AgentSafesStored(StepFunds(cfg, s, e))
  {
    FundsFrame(cfg, s, e);
    if e.RewardClaimed? {
      SaveKeepsStored(s, ClaimReward(cfg, s, e.h, e.proxy, e.sid, e.owner, e.multisig, e.reward), e.sid);
    } else if e.Unstaked? {
      UnstakeKeepsStored(cfg, s, e);
    } else if e.Erc20Transfer? {
      TransferFrame(cfg, s, e.h, e.token, e.from, e.to, e.amount);
    } else if e.NativeReceived? {
      NativeFrame(cfg, s, e.h, e.safe, e.sender, e.amount);
    }
  }

  lemma UnstakeSaves(cfg: Config, s: State, h: Header, proxy: Address, sid: nat, owner: Address, multisig: Address,
                     reward: nat)
    ensures SavesStored(s, Unstake(cfg, s, h, proxy, sid, owner, multisig, reward), sid)
  {
    UnstakeFrame(cfg, s, h, proxy, sid, owner, multisig, reward);
    var row := StakingRewardRow(cfg, s, h, UnstakeReward, proxy, sid, owner, multisig, reward);
    var s1 := SaveService(AppendRow(s, row), sid, ServiceOf(s, sid));
    assert s1.services == s.services[sid := ServiceOf(s, sid)];
    assert AddReward(s1, sid, reward, h.time).services
        == s1.services[sid := AddReward(s1, sid, reward, h.time).services[sid]];
  }

  lemma UnstakeKeepsStored(cfg: Config, s: State, e: Event)
    requires AgentSafesStored(s) && e.Unstaked?
    ensures AgentSafesStored(Unstake(cfg, s, e.h, e.proxy, e.sid, e.owner, e.multisig, e.reward))
  {
    UnstakeSaves(cfg, s, e.h, e.proxy, e.sid, e.owner, e.multisig, e.reward);
    SaveKeepsStored(s, Unstake(cfg, s, e.h, e.proxy, e.sid, e.owner, e.multisig, e.reward), e.sid);
  }

  lemma {:induction false} RunStoresAgentSafes(cfg: Config, es: Trace)
    ensures AgentSafesStored(Run(cfg, es))
  {
    if es != [] {
      var init, e := es[..|es| - 1], es[|es| - 1];
      RunStoresAgentSafes(cfg, init);
      if IsDiscovery(e) {
        DiscoveryKeepsStored(Run(cfg, init), e);
      } else {
        FundsKeepStored(cfg, Run(cfg, init), e);
      }
    }
  }

  lemma {:induction false} LedgerPrefix(es: JointTrace, n: nat) returns (m: nat)
    requires n <= |es|
    ensures m <= |LedgerOf(es)| && LedgerOf(es)[..m] == LedgerOf(es[..n])
  {
    if n == |es| {
      assert es[..n] == es;
      m := |LedgerOf(es)|;
    } else {
      m := LedgerPrefix(es[..|es| - 1], n);
      assert es[..|es| - 1][..n] == es[..n];
      assert LedgerOf(es)[..m] == LedgerOf(es[..|es| - 1])[..m];
    }
  }

  /** Tables only grow along a joint run. */
  lemma TablesExtend(cfg: Config, es: JointTrace, n: nat)
    requires n <= |es|
    ensures Extends(TablesAt(cfg, es, n), TablesAt(cfg, es, |es|))
  {
    var m := LedgerPrefix(es, n);
    assert es[..|es|] == es;
    RunExtends(cfg, LedgerOf(es), m);
  }

  lemma LinksAreStored(cfg: Config, es: JointTrace, n: nat, sid: nat)
    requires n <= |es|
    ensures var links, s := LinksOf(TablesAt(cfg, es, n), sid), TablesAt(cfg, es, |es|);
            links.Some? ==> (links.value.masterSafe.Some? ==> links.value.masterSafe.value in s.masters)
                            && (links.value.agentSafe.Some? ==> links.value.agentSafe.value in s.agents)
  {
    RunKeepsInv(cfg, LedgerOf(es[..n]));
    RunStoresAgentSafes(cfg, LedgerOf(es[..n]));
    TablesExtend(cfg, es, n);
  }

  /** A stamp is the paying Master Safe itself, and stays stored. */
  lemma StampIsPayer(cfg: Config, es: JointTrace, n: nat, account: Address)
    requires n <= |es|
    ensures var stamp := StampOf(TablesAt(cfg, es, n), account);
            && (stamp.Some? <==> Has(TablesAt(cfg, es, n).tracked, account, Master))
            && (stamp.Some? ==> stamp.value == account && account in TablesAt(cfg, es, |es|).masters)
  {
    RunKeepsInv(cfg, LedgerOf(es[..n]));
    TablesExtend(cfg, es, n);
    assert account in TablesAt(cfg, es, n).tracked ==> LinkOk(TablesAt(cfg, es, n), account);
  }

  /** The safes an attributed BondMovement names are stored at every later time. */
  lemma BondLinksResolve(cfg: Config, es: JointTrace, tx: TxHash, j: nat)
    requires DistinctLogs(es) && j < |RequestsOf(cfg, es, tx)|
    ensures j < |RowsOf(cfg, es, tx)| && RowsOf(cfg, es, tx)[j] in Movements(cfg, es)
    ensures var m, s := Movements(cfg, es)[RowsOf(cfg, es, tx)[j]], TablesAt(cfg, es, |es|);
            (m.masterSafe.Some? ==> m.masterSafe.value in s.masters)
                && (m.agentSafe.Some? ==> m.agentSafe.value in s.agents)
  {
    var i, k := AttributedBondEndsWith(cfg, es, tx, j);
    StampIsPayer(cfg, es, i, es[i].e.account);
    LinksAreStored(cfg, es, k + 1, Asks(es[k]).value.0);
  }

  /** What a tracked Master Safe deposits or is refunded stays its own: the row names it, attributed or not. */
  lemma MasterKeepsItsBonds(cfg: Config, es: JointTrace, tx: TxHash, j: nat) returns (i: nat)
    requires DistinctLogs(es) && j < |RowsOf(cfg, es, tx)|
    ensures var id := RowsOf(cfg, es, tx)[j];
            && i < |es| && Produces(es[i], tx, id) && id in Movements(cfg, es)
            && (Has(TablesAt(cfg, es, i).tracked, es[i].e.account, Master)
                ==> Movements(cfg, es)[id].masterSafe == Some(es[i].e.account))
  {
    if j < |RequestsOf(cfg, es, tx)| {
      var k;
      i, k := AttributedBondEndsWith(cfg, es, tx, j);
    } else {
      i := OpenBondCarriesStamp(cfg, es, tx, j);
    }
    StampIsPayer(cfg, es, i, es[i].e.account);
  }

  // ----- rows and requests, event by event ---------------------------------

  lemma CompactAppend(qs: seq<Option<PearlBonds.Event>>, q: Option<PearlBonds.Event>)
    ensures Compact(qs + [q]) == Compact(qs) + (if q.Some? then [q.value] else [])
  {
    assert (qs + [q])[..|qs|] == qs;
  }

  lemma TablesAtPrefix(cfg: Config, es: JointTrace, i: nat)
    requires i < |es|
    ensures TablesAt(cfg, es, i) == TablesAt(cfg, es[..|es| - 1], i)
  {
    assert es[..|es| - 1][..i] == es[..i];
  }

  lemma QueueEventAtPrefix(cfg: Config, es: JointTrace, i: nat)
    requires i < |es| - 1
    ensures QueueEventAt(cfg, es, i) == QueueEventAt(cfg, es[..|es| - 1], i)
  {
    TablesAtPrefix(cfg, es, i);
    TablesAtPrefix(cfg, es, i + 1);
  }

  lemma QueueEventsNext(cfg: Config, es: JointTrace)
    requires es != []
    ensures QueueEvents(cfg, es) == QueueEvents(cfg, es[..|es| - 1]) + [QueueEventAt(cfg, es, |es| - 1)]
  {
    var qs, init := QueueEvents(cfg, es), QueueEvents(cfg, es[..|es| - 1]);
    forall i | 0 <= i < |init| ensures qs[i] == init[i] {
      QueueEventAtPrefix(cfg, es, i);
    }
  }

  lemma QueueRunNext(cfg: Config, es: JointTrace)
    requires es != []
    ensures var q := QueueEventAt(cfg, es, |es| - 1);
            QueueRun(cfg, es) == QueueRun(cfg, es[..|es| - 1]) + (if q.Some? then [q.value] else [])
  {
    QueueEventsNext(cfg, es);
    CompactAppend(QueueEvents(cfg, es[..|es| - 1]), QueueEventAt(cfg, es, |es| - 1));
  }

  /** The ids of the SRTU deposits and refunds of a transaction, in order. */
  function BondIds(es: JointTrace, tx: TxHash): seq<Bytes> {
    if es == [] then []
    else
      var e := es[|es| - 1];
      BondIds(es[..|es| - 1], tx)
      + (if e.Ledger? && (e.e.BondDeposit? || e.e.BondRefund?) && e.e.h.tx == tx then
           [RowId(EventRow(e.e.h.tx, e.e.h.logIndex))]
         else [])
  }

  lemma AppendedNext(qs: seq<PearlBonds.Event>, q: PearlBonds.Event, tx: TxHash)
    ensures PearlBonds.Appended(qs + [q], tx)
         == PearlBonds.Appended(qs, tx) + (if q.Enqueue? && q.tx == tx then [q.id] else [])
  {
    assert (qs + [q])[..|qs|] == qs;
  }

  /** The rows of a transaction are its SRTU deposits and refunds, in log order. */
  lemma {:induction false} RowsAreBonds(cfg: Config, es: JointTrace, tx: TxHash)
    ensures RowsOf(cfg, es, tx) == BondIds(es, tx)
  {
    if es != [] {
      var init := es[..|es| - 1];
      RowsAreBonds(cfg, init, tx);
      QueueRunNext(cfg, es);
      var q := QueueEventAt(cfg, es, |es| - 1);
      if q.Some? {
        AppendedNext(QueueRun(cfg, init), q.value, tx);
      } else {
        assert QueueRun(cfg, es) == QueueRun(cfg, init);
      }
    }
  }

  /** The registry events that ask for a row: an instance registered or unbonded, a service activated or terminated. */
  predicate AgentBondOf(e: JointEvent, sid: nat) {
    e == Unbonded(HeaderOf(e), sid) || RegistersIn(e, HeaderOf(e).tx, sid)
  }

  predicate DepositOf(e: JointEvent, sid: nat) {
    e == Activated(HeaderOf(e), sid) || (e.Ledger? && e.e.Terminated? && e.e.sid == sid)
  }

  predicate RegistersIn(e: JointEvent, tx: TxHash, sid: nat) {
    e.Ledger? && e.e.InstanceRegistered? && e.e.h.tx == tx && e.e.sid == sid
  }

  ghost predicate RegisteredIn(es: JointTrace, tx: TxHash, sid: nat) {
    exists i :: 0 <= i < |es| && RegistersIn(es[i], tx, sid)
  }

  lemma RegisteredInNext(es: JointTrace, tx: TxHash, sid: nat)
    requires es != []
    ensures RegisteredIn(es, tx, sid) <==> RegisteredIn(es[..|es| - 1], tx, sid) || RegistersIn(es[|es| - 1], tx, sid)
  {
    assert forall i :: 0 <= i < |es| - 1 ==> es[..|es| - 1][i] == es[i];
  }

  lemma AskedOnceAppend(qs: seq<PearlBonds.Event>, q: PearlBonds.Event, tx: TxHash, sid: nat)
    ensures PearlBonds.AskedOnce(qs + [q], tx, sid) <==>
              PearlBonds.AskedOnce(qs, tx, sid) || PearlBonds.AsksOnce(q, tx, sid)
  {
    assert (qs + [q])[..|qs|] == qs;
    PearlBonds.AskedOnceNext(qs + [q], tx, sid);
  }

  lemma RegistrationAsksOnce(cfg: Config, es: JointTrace, tx: TxHash, sid: nat)
    requires es != []
    ensures var q := QueueEventAt(cfg, es, |es| - 1);
            q.Some? && PearlBonds.AsksOnce(q.value, tx, sid) <==> RegistersIn(es[|es| - 1], tx, sid)
  {
  }

  lemma {:induction false} AskedOnceIffRegistered(cfg: Config, es: JointTrace, tx: TxHash, sid: nat)
    ensures PearlBonds.AskedOnce(QueueRun(cfg, es), tx, sid) <==> RegisteredIn(es, tx, sid)
  {
    if es != [] {
      var init := es[..|es| - 1];
      AskedOnceIffRegistered(cfg, init, tx, sid);
      QueueRunNext(cfg, es);
      RegisteredInNext(es, tx, sid);
      RegistrationAsksOnce(cfg, es, tx, sid);
      var q := QueueEventAt(cfg, es, |es| - 1);
      if q.Some? {
        AskedOnceAppend(QueueRun(cfg, init), q.value, tx, sid);
      } else {
        assert QueueRun(cfg, es) == QueueRun(cfg, init);
      }
    }
  }

  /** The request an event makes for a row of the service. */
  ghost predicate IsRequestOf(cfg: Config, es: JointTrace, req: PearlBonds.Request, sid: nat,
                              bondType: PearlBonds.BondType)
  {
    && req.sid == sid && req.bondType == bondType
    && var services := TablesAt(cfg, es, |es|).services;
       req.links == if sid in services then
           Some(PearlBonds.ServiceLinks(services[sid].masterSafe, services[sid].agentSafe))
         else None
  }

  /** The queue event of a registry event, told by its service, its bond type and its guard. */
  lemma AskedFor(before: State, after: State, e: JointEvent, sid: nat)
    requires AgentBondOf(e, sid) || DepositOf(e, sid)
    ensures QueueEvent(before, after, e)
         == Some(PearlBonds.Dequeue(HeaderOf(e).tx, PearlBonds.Request(
              sid, if AgentBondOf(e, sid) then PearlBonds.AgentBond else PearlBonds.SecurityDeposit,
              LinksOf(after, sid), RegistersIn(e, HeaderOf(e).tx, sid))))
  {
  }

  lemma QueueEventAsks(cfg: Config, es: JointTrace, sid: nat)
    requires es != [] && (AgentBondOf(es[|es| - 1], sid) || DepositOf(es[|es| - 1], sid))
    ensures var e, q := es[|es| - 1], QueueEventAt(cfg, es, |es| - 1);
            && q.Some? && q.value.Dequeue? && q.value.tx == HeaderOf(e).tx
            && q.value.req.once == RegistersIn(e, HeaderOf(e).tx, sid)
            && IsRequestOf(cfg, es, q.value.req, sid,
                           if AgentBondOf(e, sid) then PearlBonds.AgentBond else PearlBonds.SecurityDeposit)
  {
    AskedFor(TablesAt(cfg, es, |es| - 1), TablesAt(cfg, es, |es|), es[|es| - 1], sid);
  }

  /**
   A registry event takes the oldest open row of its transaction, if there is one, for its service and with its
   bond type; RegisterInstance does so only for the first time in the transaction.
   */
  lemma RegistryEventTakesRow(cfg: Config, es: JointTrace, sid: nat)
    requires es != [] && (AgentBondOf(es[|es| - 1], sid) || DepositOf(es[|es| - 1], sid))
    ensures var init, e := es[..|es| - 1], es[|es| - 1];
            var tx := HeaderOf(e).tx;
            var before, now := RequestsOf(cfg, init, tx), RequestsOf(cfg, es, tx);
            if |before| < |RowsOf(cfg, init, tx)| && !(RegistersIn(e, tx, sid) && RegisteredIn(init, tx, sid)) then
              && |now| == |before| + 1 && now[..|before|] == before
              && IsRequestOf(cfg, es, now[|before|], sid,
                             if AgentBondOf(e, sid) then PearlBonds.AgentBond else PearlBonds.SecurityDeposit)
            else now == before
  {
    var init, e := es[..|es| - 1], es[|es| - 1];
    var tx := HeaderOf(e).tx;
    QueueEventAsks(cfg, es, sid);
    QueueRunNext(cfg, es);
    AskedOnceIffRegistered(cfg, init, tx, sid);
    var qs, q := QueueRun(cfg, init), QueueEventAt(cfg, es, |es| - 1).value;
    assert (qs + [q])[..|qs|] == qs;
    PearlBonds.ServedIff(qs + [q], tx);
  }

  predicate IsRegistryEvent(e: JointEvent) {
    e.Activated? || e.Unbonded? || (e.Ledger? && (e.e.InstanceRegistered? || e.e.Terminated?))
  }

  /** Every other event, and one of another transaction, leaves the requests of a transaction as they are. */
  lemma OtherEventsTakeNoRow(cfg: Config, es: JointTrace, tx: TxHash)
    requires es != [] && (!IsRegistryEvent(es[|es| - 1]) || HeaderOf(es[|es| - 1]).tx != tx)
    ensures RequestsOf(cfg, es, tx) == RequestsOf(cfg, es[..|es| - 1], tx)
  {
    var q := QueueEventAt(cfg, es, |es| - 1);
    QueueRunNext(cfg, es);
    var qs := QueueRun(cfg, es[..|es| - 1]);
    if q.Some? {
      assert (qs + [q.value])[..|qs|] == qs;
    } else {
      assert QueueRun(cfg, es) == qs;
    }
  }
}
