/**
 The per-transaction bond queue: SRTU handlers append BondMovement rows, registry
 handlers attribute the oldest row that is still open.
 */
module PearlBonds {
  import opened Collections
  import opened PearlIds

  datatype BondType = SecurityDeposit | AgentBond

  /** The attribution fields of a BondMovement; amount and parties never change. */
  datatype Movement = Movement(
    service: Option<nat>,
    bondType: Option<BondType>,
    masterSafe: Option<Address>,
    agentSafe: Option<Address>)

  /** The two links of the Service entity a consumer reads, if that entity exists. */
  datatype ServiceLinks = ServiceLinks(masterSafe: Option<Address>, agentSafe: Option<Address>)

  /** All row ids appended in one transaction and how many of them are attributed. */
  datatype Queue = Queue(rows: seq<Bytes>, done: nat)

  datatype State = State(queues: map<TxHash, Queue>, guards: set<(TxHash, nat)>, movements: map<Bytes, Movement>)

  const EMPTY := State(map[], {}, map[])

  /** A registry event that asks for a row; `once` marks RegisterInstance, which is guarded per service. */
  datatype Request = Request(sid: nat, bondType: BondType, links: Option<ServiceLinks>, once: bool)

  datatype Event =
    | Enqueue(tx: TxHash, id: Bytes, masterSafe: Option<Address>)
    | Dequeue(tx: TxHash, req: Request)

  function QueueOf(s: State, tx: TxHash): Queue {
    if tx in s.queues then s.queues[tx] else Queue([], 0)
  }

  /** Whether a request is blocked by its once-per-service guard. */
  predicate Blocked(s: State, tx: TxHash, req: Request) {
    req.once && (tx, req.sid) in s.guards
  }

  predicate Serves(s: State, tx: TxHash, req: Request) {
    !Blocked(s, tx, req) && QueueOf(s, tx).done < |QueueOf(s, tx).rows|
  }

  function Attributed(m: Movement, req: Request): Movement {
    var master := if req.links.Some? && m.masterSafe.None? then req.links.value.masterSafe else m.masterSafe;
    var agent := if req.links.Some? && req.links.value.agentSafe.Some? then req.links.value.agentSafe else m.agentSafe;
    Movement(Some(req.sid), Some(req.bondType), master, agent)
  }

  function Pop(s: State, tx: TxHash, req: Request): State {
    var q := QueueOf(s, tx);
    if q.done >= |q.rows| then s
    else
      var id := q.rows[q.done];
      s.(queues := s.queues[tx := q.(done := q.done + 1)],
         movements := if id in s.movements then s.movements[id := Attributed(s.movements[id], req)] else s.movements)
  }

  function Step(s: State, e: Event): State {
    match e
    case Enqueue(tx, id, masterSafe) =>
      var q := QueueOf(s, tx);
      s.(queues := s.queues[tx := q.(rows := q.rows + [id])],
         movements := s.movements[id := Movement(None, None, masterSafe, None)])
    case Dequeue(tx, req) =>
      if Blocked(s, tx, req) then s
      else Pop(if req.once then s.(guards := s.guards + {(tx, req.sid)}) else s, tx, req)
  }

  function Run(es: seq<Event>): State {
    if es == [] then EMPTY else Step(Run(es[..|es| - 1]), es[|es| - 1])
  }

  // ----- the queue of one transaction --------------------------------------

  /** The ids appended in a transaction, in order. */
  function Appended(es: seq<Event>, tx: TxHash): seq<Bytes> {
    if es == [] then []
    else
      var e := es[|es| - 1];
      Appended(es[..|es| - 1], tx) + (if e.Enqueue? && e.tx == tx then [e.id] else [])
  }

  /** The Master Safes their producers stamped them with. */
  function Stamped(es: seq<Event>, tx: TxHash): (r: seq<Option<Address>>)
    ensures |r| == |Appended(es, tx)|
  {
    if es == [] then []
    else
      var e := es[|es| - 1];
      Stamped(es[..|es| - 1], tx) + (if e.Enqueue? && e.tx == tx then [e.masterSafe] else [])
  }

  /** The requests of a transaction that found a row, in order. */
  function Served(es: seq<Event>, tx: TxHash): seq<Request> {
    if es == [] then []
    else
      var init, e := es[..|es| - 1], es[|es| - 1];
      Served(init, tx) + (if e.Dequeue? && e.tx == tx && Serves(Run(init), tx, e.req) then [e.req] else [])
  }

  /** A guarded request of the service in the transaction. */
  predicate AsksOnce(e: Event, tx: TxHash, sid: nat) {
    e.Dequeue? && e.tx == tx && e.req.once && e.req.sid == sid
  }

  ghost predicate AskedOnce(es: seq<Event>, tx: TxHash, sid: nat) {
    exists i :: 0 <= i < |es| && AsksOnce(es[i], tx, sid)
  }

  lemma AskedOnceNext(es: seq<Event>, tx: TxHash, sid: nat)
    requires es != []
    ensures AskedOnce(es, tx, sid) <==> AskedOnce(es[..|es| - 1], tx, sid) || AsksOnce(es[|es| - 1], tx, sid)
  {
    assert forall i :: 0 <= i < |es| - 1 ==> es[..|es| - 1][i] == es[i];
  }

  lemma {:induction false} GuardedIffAsked(es: seq<Event>, tx: TxHash, sid: nat)
    ensures (tx, sid) in Run(es).guards <==> AskedOnce(es, tx, sid)
  {
    if es != [] {
      GuardedIffAsked(es[..|es| - 1], tx, sid);
      AskedOnceNext(es, tx, sid);
    }
  }

  /**
   A request is served exactly when its transaction has a row left and, if it is guarded, no guarded request of
   its service came before it in the transaction, served or not.
   */
  lemma ServedIff(es: seq<Event>, tx: TxHash)
    requires es != [] && es[|es| - 1].Dequeue? && es[|es| - 1].tx == tx
    ensures var init, req := es[..|es| - 1], es[|es| - 1].req;
            Served(es, tx) == Served(init, tx)
              + if |Served(init, tx)| < |Appended(init, tx)| && !(req.once && AskedOnce(init, tx, req.sid))
                then [req] else []
  {
    QueueCounts(es[..|es| - 1], tx);
    GuardedIffAsked(es[..|es| - 1], tx, es[|es| - 1].req.sid);
  }

  function Only(es: seq<Event>, tx: TxHash): seq<Event> {
    if es == [] then []
    else Only(es[..|es| - 1], tx) + (if es[|es| - 1].tx == tx then [es[|es| - 1]] else [])
  }

  /** What one transaction's handlers read and write besides the rows themselves. */
  ghost predicate SameTx(s: State, s': State, tx: TxHash) {
    QueueOf(s, tx) == QueueOf(s', tx) && forall sid :: (tx, sid) in s.guards <==> (tx, sid) in s'.guards
  }

  lemma StepSameTx(s: State, s': State, e: Event, tx: TxHash)
    requires SameTx(s, s', tx)
    ensures e.tx == tx ==> SameTx(Step(s, e), Step(s', e), tx)
    ensures e.tx == tx && e.Dequeue? ==> (Serves(s, tx, e.req) <==> Serves(s', tx, e.req))
    ensures e.tx != tx ==> SameTx(Step(s, e), s', tx)
  {
  }

  /** Interleaving transactions changes nothing: each queue evolves as if its transaction ran alone. */
  lemma {:induction false} InterleavingIrrelevant(es: seq<Event>, tx: TxHash)
    ensures SameTx(Run(es), Run(Only(es, tx)), tx)
    ensures Served(es, tx) == Served(Only(es, tx), tx)
  {
    if es != [] {
      var init, e := es[..|es| - 1], es[|es| - 1];
      InterleavingIrrelevant(init, tx);
      StepSameTx(Run(init), Run(Only(init, tx)), e, tx);
      var alone := Only(es, tx);
      if e.tx == tx {
        assert alone[..|alone| - 1] == Only(init, tx) && alone[|alone| - 1] == e;
      } else {
        assert alone == Only(init, tx);
        assert Served(es, tx) == Served(init, tx);
      }
    }
  }

  /** The queue holds what was appended; its attributed prefix is as long as the served requests. */
  lemma {:induction false} QueueCounts(es: seq<Event>, tx: TxHash)
    ensures QueueOf(Run(es), tx) == Queue(Appended(es, tx), |Served(es, tx)|)
    ensures |Served(es, tx)| <= |Appended(es, tx)|
  {
    if es != [] {
      QueueCounts(es[..|es| - 1], tx);
    }
  }

  /** Ids of BondMovement rows are unique. */
  ghost predicate DistinctRows(es: seq<Event>) {
    forall i, j :: 0 <= i < j < |es| && es[i].Enqueue? && es[j].Enqueue? ==> es[i].id != es[j].id
  }

  lemma {:induction false} AppendedComesFrom(es: seq<Event>, tx: TxHash, j: nat) returns (i: nat)
    requires j < |Appended(es, tx)|
    ensures i < |es| && es[i].Enqueue? && es[i].tx == tx && es[i].id == Appended(es, tx)[j]
  {
    var init := es[..|es| - 1];
    if j < |Appended(init, tx)| {
      i := AppendedComesFrom(init, tx, j);
    } else {
      i := |es| - 1;
    }
  }

  /** Rows of different transactions, and different slots of one transaction, are different rows. */
  lemma {:induction false} AppendedDistinct(es: seq<Event>, tx: TxHash, j: nat, tx': TxHash, j': nat)
    requires DistinctRows(es)
    requires j < |Appended(es, tx)| && j' < |Appended(es, tx')|
    requires tx != tx' || j != j'
    ensures Appended(es, tx)[j] != Appended(es, tx')[j']
    decreases |es|
  {
    var init, e := es[..|es| - 1], es[|es| - 1];
    if j < |Appended(init, tx)| && j' < |Appended(init, tx')| {
      AppendedDistinct(init, tx, j, tx', j');
    } else if j < |Appended(init, tx)| {
      var i := AppendedComesFrom(init, tx, j);
      assert es[i] == init[i];
    } else if j' < |Appended(init, tx')| {
      var i := AppendedComesFrom(init, tx', j');
      assert es[i] == init[i];
    }
  }

  /** What a row carries, given its producer's stamp and the request it was handed to. */
  predicate Carries(m: Movement, stamp: Option<Address>, served: Option<Request>) {
    match served
    case None => m == Movement(None, None, stamp, None)
    case Some(req) =>
      && m.service == Some(req.sid) && m.bondType == Some(req.bondType)
      && m.masterSafe == (if stamp.None? && req.links.Some? then req.links.value.masterSafe else stamp)
      && m.agentSafe == (if req.links.Some? then req.links.value.agentSafe else None)
  }

  function ServedAt(es: seq<Event>, tx: TxHash, j: nat): Option<Request> {
    if j < |Served(es, tx)| then Some(Served(es, tx)[j]) else None
  }

  /** The j-th row of a transaction's queue carries what the j-th served request brought. */
  ghost predicate AttributedInOrder(es: seq<Event>, tx: TxHash, j: nat)
    requires j < |Appended(es, tx)|
  {
    var id, ms := Appended(es, tx)[j], Run(es).movements;
    id in ms && Carries(ms[id], Stamped(es, tx)[j], ServedAt(es, tx, j))
  }

  lemma FifoAfterAppend(es: seq<Event>, tx: TxHash, j: nat)
    requires DistinctRows(es) && es != [] && es[|es| - 1].Enqueue?
    requires j < |Appended(es[..|es| - 1], tx)| && AttributedInOrder(es[..|es| - 1], tx, j)
    ensures AttributedInOrder(es, tx, j)
  {
    var init := es[..|es| - 1];
    var i := AppendedComesFrom(init, tx, j);
    assert es[i] == init[i];
    assert Appended(es, tx)[j] == Appended(init, tx)[j] != es[|es| - 1].id;
    assert Stamped(es, tx)[j] == Stamped(init, tx)[j] && Served(es, tx) == Served(init, tx);
  }

  lemma FifoNewRow(es: seq<Event>, tx: TxHash)
    requires es != [] && es[|es| - 1].Enqueue? && es[|es| - 1].tx == tx
    ensures AttributedInOrder(es, tx, |Appended(es, tx)| - 1)
  {
    QueueCounts(es[..|es| - 1], tx);
    assert Served(es, tx) == Served(es[..|es| - 1], tx);
  }

  /** A request that is served changes the row at its transaction's cursor and no other. */
  lemma RequestChangesOneRow(es: seq<Event>)
    requires es != [] && es[|es| - 1].Dequeue?
    ensures var init, e := es[..|es| - 1], es[|es| - 1];
            var ms, slot := Run(init).movements, |Served(init, e.tx)|;
            if Serves(Run(init), e.tx, e.req) then
              && slot < |Appended(init, e.tx)|
              && var id := Appended(init, e.tx)[slot];
                 Run(es).movements == if id in ms then ms[id := Attributed(ms[id], e.req)] else ms
            else Run(es).movements == ms
  {
    QueueCounts(es[..|es| - 1], es[|es| - 1].tx);
  }

  lemma ServedStep(es: seq<Event>, tx: TxHash, j: nat)
    requires es != [] && es[|es| - 1].Dequeue?
    ensures var init, e := es[..|es| - 1], es[|es| - 1];
            ServedAt(es, tx, j) == if e.tx == tx && j == |Served(init, tx)|
                && Serves(Run(init), tx, e.req) then Some(e.req) else ServedAt(init, tx, j)
  {
  }

  lemma FifoAfterRequest(es: seq<Event>, tx: TxHash, j: nat)
    requires DistinctRows(es) && es != [] && es[|es| - 1].Dequeue?
    requires j < |Appended(es[..|es| - 1], tx)| && AttributedInOrder(es[..|es| - 1], tx, j)
    ensures AttributedInOrder(es, tx, j)
  {
    var init, e := es[..|es| - 1], es[|es| - 1];
    assert Appended(es, tx) == Appended(init, tx) && Stamped(es, tx) == Stamped(init, tx);
    RequestChangesOneRow(es);
    ServedStep(es, tx, j);
    var slot := |Served(init, e.tx)|;
    if Serves(Run(init), e.tx, e.req) && (e.tx != tx || slot != j) {
      AppendedDistinct(init, e.tx, slot, tx, j);
    }
  }

  /**
   First in, first out, at most once: in every run, the j-th row appended in a transaction carries
   the service, bond type and safes of that transaction's j-th served request, and nothing but its
   producer's stamp while fewer than j + 1 requests have been served.
   */
  lemma {:induction false} AttributionIsFifo(es: seq<Event>, tx: TxHash, j: nat)
    requires DistinctRows(es) && j < |Appended(es, tx)|
    ensures AttributedInOrder(es, tx, j)
    decreases |es|
  {
    var init := es[..|es| - 1];
    if j < |Appended(init, tx)| {
      AttributionIsFifo(init, tx, j);
      if es[|es| - 1].Enqueue? {
        FifoAfterAppend(es, tx, j);
      } else {
        FifoAfterRequest(es, tx, j);
      }
    } else {
      FifoNewRow(es, tx);
    }
  }

  function OnceServed(rs: seq<Request>, sid: nat): nat {
    if rs == [] then 0
    else OnceServed(rs[..|rs| - 1], sid) + (if rs[|rs| - 1].once && rs[|rs| - 1].sid == sid then 1 else 0)
  }

  lemma OnceServedAppend(rs: seq<Request>, r: Request, sid: nat)
    ensures OnceServed(rs + [r], sid) == OnceServed(rs, sid) + (if r.once && r.sid == sid then 1 else 0)
  {
    assert (rs + [r])[..|rs|] == rs;
  }

  /** However many RegisterInstance events a service has in a transaction, they take at most one row. */
  lemma {:induction false} RegisterInstanceTakesOneRow(es: seq<Event>, tx: TxHash, sid: nat)
    ensures OnceServed(Served(es, tx), sid) <= (if (tx, sid) in Run(es).guards then 1 else 0)
  {
    if es != [] {
      var init, e := es[..|es| - 1], es[|es| - 1];
      RegisterInstanceTakesOneRow(init, tx, sid);
      if e.Dequeue? && e.tx == tx && Serves(Run(init), tx, e.req) {
        OnceServedAppend(Served(init, tx), e.req, sid);
      } else {
        assert Served(es, tx) == Served(init, tx);
      }
    }
  }

  // ----- the stored form ---------------------------------------------------

  datatype Counter = Counter(nextEnqueueSlot: nat, nextDequeueSlot: nat)
  datatype PendingBondRow = PendingBondRow(bondMovement: Bytes, attributed: bool)

  /** Slots below the dequeue cursor are attributed, those from there to the enqueue cursor are not. */
  ghost predicate SlotsMatch(slots: map<Bytes, PendingBondRow>, queues: map<TxHash, Queue>) {
    forall tx, slot :: tx in queues && 0 <= slot < |queues[tx].rows| && slot < 0x8000_0000 ==>
      SlotId(tx, slot) in slots
          && slots[SlotId(tx, slot)] == PendingBondRow(queues[tx].rows[slot], slot < queues[tx].done)
  }

  ghost predicate CountersMatch(counters: map<TxHash, Counter>, queues: map<TxHash, Queue>) {
    && counters.Keys == queues.Keys
    && forall tx :: tx in counters ==>
         counters[tx] == Counter(|queues[tx].rows|, queues[tx].done)
             && queues[tx].done <= |queues[tx].rows| < 0x8000_0000
  }

  lemma SaveQueueMatches(counters: map<TxHash, Counter>, queues: map<TxHash, Queue>, tx: TxHash, q: Queue)
    requires CountersMatch(counters, queues) && q.done <= |q.rows| < 0x8000_0000
    ensures CountersMatch(counters[tx := Counter(|q.rows|, q.done)], queues[tx := q])
  {
  }

  lemma AppendMatches(slots: map<Bytes, PendingBondRow>, queues: map<TxHash, Queue>, tx: TxHash, id: Bytes)
    requires SlotsMatch(slots, queues)
    requires var q := QueueOf(State(queues, {}, map[]), tx); q.done <= |q.rows| < 0x8000_0000
    ensures var q := QueueOf(State(queues, {}, map[]), tx);
            SlotsMatch(slots[SlotId(tx, |q.rows|) := PendingBondRow(id, false)],
                       queues[tx := q.(rows := q.rows + [id])])
  {
    var q := QueueOf(State(queues, {}, map[]), tx);
    var queues' := queues[tx := q.(rows := q.rows + [id])];
    forall tx', slot' | tx' in queues' && 0 <= slot' < |queues'[tx'].rows| && slot' < 0x8000_0000
      ensures SlotId(tx', slot') == SlotId(tx, |q.rows|) <==> tx' == tx && slot' == |q.rows|
    {
      SlotIdInjective(tx', slot', tx, |q.rows|);
    }
  }

  lemma PopMatches(slots: map<Bytes, PendingBondRow>, queues: map<TxHash, Queue>, tx: TxHash)
    requires SlotsMatch(slots, queues)
    requires tx in queues && queues[tx].done < |queues[tx].rows| < 0x8000_0000
    ensures var q := queues[tx];
            SlotsMatch(slots[SlotId(tx, q.done) := PendingBondRow(q.rows[q.done], true)],
                       queues[tx := q.(done := q.done + 1)])
  {
    var q := queues[tx];
    forall tx', slot' | tx' in queues && 0 <= slot' < |queues[tx'].rows| && slot' < 0x8000_0000
      ensures SlotId(tx', slot') == SlotId(tx, q.done) <==> tx' == tx && slot' == q.done
    {
      SlotIdInjective(tx', slot', tx, q.done);
    }
  }

  /** The entity tables behind the queue: cursors, slots, guards and rows. */
  class BondQueue {
    var counters: map<TxHash, Counter>
    var slots: map<Bytes, PendingBondRow>
    var guards: set<(TxHash, nat)>
    var movements: map<Bytes, Movement>
    ghost var queues: map<TxHash, Queue>

    ghost predicate Valid()
      reads this
    {
      CountersMatch(counters, queues) && SlotsMatch(slots, queues)
    }

    ghost function Abs(): State
      reads this
    {
      State(queues, guards, movements)
    }

    constructor ()
      ensures Valid() && Abs() == EMPTY
    {
      counters, slots, guards, movements, queues := map[], map[], {}, map[], map[];
    }

    /** The row creation and `enqueuePendingBondRow` of the two SRTU handlers. */
    method EnqueueRow(tx: TxHash, id: Bytes, masterSafe: Option<Address>)
      requires Valid()
      requires |QueueOf(Abs(), tx).rows| < 0x7fff_ffff
      modifies this
      ensures Valid() && Abs() == Step(old(Abs()), Enqueue(tx, id, masterSafe))
    {
      ghost var q := QueueOf(Abs(), tx);
      AppendMatches(slots, queues, tx, id);
      movements := movements[id := Movement(None, None, masterSafe, None)];
      var counter := if tx in counters then counters[tx] else Counter(0, 0);
      SaveQueueMatches(counters, queues, tx, q.(rows := q.rows + [id]));
      var slot := counter.nextEnqueueSlot;
      slots := slots[SlotId(tx, slot) := PendingBondRow(id, false)];
      counters := counters[tx := counter.(nextEnqueueSlot := slot + 1)];
      queues := queues[tx := q.(rows := q.rows + [id])];
    }

    predicate Open(tx: TxHash, slot: I32)
      reads this
    {
      SlotId(tx, slot) in slots && !slots[SlotId(tx, slot)].attributed
    }

    /** The slot scan of `dequeueAndAttribute`, on any table contents: the first open slot, or `to`. */
    method Scan(tx: TxHash, from: nat, to: nat) returns (slot: nat, probes: nat)
      requires from <= to < 0x8000_0000
      ensures from <= slot <= to
      ensures forall k :: from <= k < slot ==> !Open(tx, k)
      ensures slot < to ==> Open(tx, slot)
      ensures probes == slot - from + (if slot < to then 1 else 0)
    {
      slot, probes := from, 0;
      while slot < to
        invariant from <= slot <= to
        invariant forall k :: from <= k < slot ==> !Open(tx, k)
        invariant probes == slot - from
      {
        probes := probes + 1;
        if Open(tx, slot) {
          return;
        }
        slot := slot + 1;
      }
    }

    method Attribute(id: Bytes, req: Request)
      modifies this`movements
      ensures movements == if id in old(movements) then old(movements)[id := Attributed(old(movements)[id], req)]
          else old(movements)
    {
      if id in movements {
        var movement := movements[id].(service := Some(req.sid), bondType := Some(req.bondType));
        if req.links.Some? {
          if movement.masterSafe.None? && req.links.value.masterSafe.Some? {
            movement := movement.(masterSafe := req.links.value.masterSafe);
          }
          if req.links.value.agentSafe.Some? {
            movement := movement.(agentSafe := req.links.value.agentSafe);
          }
        }
        movements := movements[id := movement];
      }
    }

    /** `dequeueAndAttribute`: on a non-empty queue the scan stops at its first probe. */
    method DequeueAndAttribute(tx: TxHash, req: Request) returns (probes: nat)
      requires Valid()
      modifies this
      ensures Valid() && Abs() == Pop(old(Abs()), tx, req)
      ensures probes == if QueueOf(old(Abs()), tx).done < |QueueOf(old(Abs()), tx).rows| then 1 else 0
    {
      if tx !in counters {
        return 0;
      }
      var counter := counters[tx];
      var slot;
      slot, probes := Scan(tx, counter.nextDequeueSlot, counter.nextEnqueueSlot);
      if slot < counter.nextEnqueueSlot {
        PopMatches(slots, queues, tx);
        SaveQueueMatches(counters, queues, tx, queues[tx].(done := queues[tx].done + 1));
        assert Open(tx, queues[tx].done);
        assert slot == queues[tx].done;
        var ptr := slots[SlotId(tx, slot)];
        slots := slots[SlotId(tx, slot) := ptr.(attributed := true)];
        counters := counters[tx := counter.(nextDequeueSlot := slot + 1)];
        queues := queues[tx := queues[tx].(done := slot + 1)];
        Attribute(ptr.bondMovement, req);
      } else if counter.nextDequeueSlot < counter.nextEnqueueSlot {
        assert Open(tx, queues[tx].done);
        assert false;
      }
    }

    /** A consumer event: RegisterInstance goes through `attributeAgentBondOncePerService`, the others directly. */
    method Consume(tx: TxHash, req: Request)
      requires Valid()
      modifies this
      ensures Valid() && Abs() == Step(old(Abs()), Dequeue(tx, req))
    {
      if req.once {
        if (tx, req.sid) in guards {
          return;
        }
        guards := guards + {(tx, req.sid)};
      }
      var probes := DequeueAndAttribute(tx, req);
    }
  }
}
