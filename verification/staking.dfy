/**
 Staking epochs: active-service lists carried from epoch to epoch, per-epoch reward
 histories, and the aggregates kept beside them.
 */
module Staking {
  import opened Collections

  type Address = nat

  datatype Service = Service(staked: int, earned: int, claimed: int, epochs: int, contract: Option<Address>)

  /** A history is closed once a checkpoint has written it. */
  datatype History = History(reward: int, closed: bool)

  /** (service, contract, epoch). */
  type Key = (nat, Address, nat)

  datatype State = State(
    services: map<nat, Service>,
    histories: map<Key, History>,
    active: map<(Address, nat), seq<nat>>,
    cumulativeStaked: int,
    cumulativeUnstaked: int,
    currentStaked: int,
    totalRewards: int)

  const EMPTY := State(map[], map[], map[], 0, 0, 0, 0)
  const NEW_SERVICE := Service(0, 0, 0, 0, None)

  /** The stake of a contract: minStakingDeposit times (numAgentInstances + 1), or 0 if it is not indexed. */
  type Stakes = map<Address, nat>

  function StakeOf(stakes: Stakes, c: Address): nat {
    if c in stakes then stakes[c] else 0
  }

  datatype Event =
    | Staked(c: Address, epoch: nat, sid: nat)
    | Checkpoint(c: Address, epoch: nat, sids: seq<nat>, rewards: seq<nat>)
    | RewardClaimed(sid: nat, reward: nat)
    | Unstaked(c: Address, epoch: nat, sid: nat, reward: nat)

  /** A checkpoint with fewer rewards than service ids aborts; surplus rewards are never read. */
  predicate Completes(e: Event) {
    e.Checkpoint? && |e.sids| <= |e.rewards|
  }

  function ActiveAt(s: State, c: Address, epoch: nat): seq<nat> {
    if (c, epoch) in s.active then s.active[(c, epoch)] else []
  }

  // ----- histories ---------------------------------------------------------

  /** `getOrCreateServiceRewardsHistory`: a new history counts one more epoch for a known service. */
  function Participate(s: State, k: Key): State {
    if k in s.histories then s
    else
      s.(histories := s.histories[k := History(0, false)],
         services := if k.0 in s.services
             then s.services[k.0 := s.services[k.0].(epochs := s.services[k.0].epochs + 1)] else s.services)
  }

  function Write(s: State, k: Key, h: History): State {
    var s' := Participate(s, k);
    s'.(histories := s'.histories[k := h])
  }

  function Earn(s: State, sid: nat, reward: int): State {
    if sid in s.services then s.(services := s.services[sid := s.services[sid].(earned := s.services[sid].earned
        + reward)]) else s
  }

  /** One rewarded service of a checkpoint. */
  function RewardOne(s: State, k: Key, reward: int): State {
    Write(Earn(s, k.0, reward), k, History(reward, true))
  }

  predicate Migrated(s: State, sid: nat, c: Address) {
    sid in s.services && s.services[sid].contract.Some? && s.services[sid].contract.value != c
  }

  /** One active service without a reward. */
  function CloseOne(s: State, k: Key): State {
    if Migrated(s, k.0, k.1) then s else Write(s, k, History(0, true))
  }

  function RewardAll(s: State, c: Address, epoch: nat, sids: seq<nat>, rewards: seq<nat>): State
    requires |sids| <= |rewards|
  {
    if sids == [] then s
    else
      var n := |sids| - 1;
      RewardOne(RewardAll(s, c, epoch, sids[..n], rewards[..n]), (sids[n], c, epoch), rewards[n])
  }

  function CloseAll(s: State, c: Address, epoch: nat, sids: seq<nat>, handled: seq<nat>): State {
    if sids == [] then s
    else
      var n := |sids| - 1;
      var s' := CloseAll(s, c, epoch, sids[..n], handled);
      if sids[n] in handled then s' else CloseOne(s', (sids[n], c, epoch))
  }

  /** The next epoch's list: those already staked for it, then the currently active ones. */
  function RollOver(s: State, c: Address, epoch: nat): State {
    var now := ActiveAt(s, c, epoch);
    s.(active := s.active[(c, epoch + 1) := if (c, epoch + 1) in s.active then Merge(s.active[(c, epoch + 1)], now)
        else now])
  }

  function Rewards(rewards: seq<nat>): int {
    if rewards == [] then 0 else Rewards(rewards[..|rewards| - 1]) + rewards[|rewards| - 1]
  }

  /** `handleCheckpoint`; an aborted handler leaves nothing behind. */
  function CheckpointState(s: State, c: Address, epoch: nat, sids: seq<nat>, rewards: seq<nat>): State {
    if |rewards| < |sids| then s else CompletedCheckpoint(s, c, epoch, sids, rewards)
  }

  function CompletedCheckpoint(s: State, c: Address, epoch: nat, sids: seq<nat>, rewards: seq<nat>): State
    requires |sids| <= |rewards|
  {
    var s1 := RewardAll(s, c, epoch, sids, rewards);
    var s2 := if (c, epoch) in s1.active then RollOver(CloseAll(s1, c, epoch, s1.active[(c, epoch)], sids), c, epoch)
        else s1;
    s2.(totalRewards := s2.totalRewards + Rewards(rewards[..|sids|]))
  }

  function StakeRow(stakes: Stakes, s: State, c: Address, epoch: nat, sid: nat): State {
    var svc := if sid in s.services then s.services[sid] else NEW_SERVICE;
    s.(services := s.services[sid := svc.(staked := svc.staked + StakeOf(stakes, c), contract := Some(c))],
       active := s.active[(c, epoch) := AddOnce(ActiveAt(s, c, epoch), sid)])
  }

  function StakeState(stakes: Stakes, s: State, c: Address, epoch: nat, sid: nat): State {
    var s' := Participate(StakeRow(stakes, s, c, epoch, sid), (sid, c, epoch));
    s'.(cumulativeStaked := s.cumulativeStaked + StakeOf(stakes, c), currentStaked := s.currentStaked
        + StakeOf(stakes, c))
  }

  function ClaimState(s: State, sid: nat, reward: nat): State {
    if sid in s.services then s.(services := s.services[sid := s.services[sid].(claimed := s.services[sid].claimed
        + reward)]) else s
  }

  function UnstakeRow(stakes: Stakes, s: State, c: Address, sid: nat, reward: nat): State {
    if sid in s.services then
      var svc := s.services[sid];
      s.(services := s.services[sid := svc.(contract := None, claimed := svc.claimed + reward, staked := svc.staked
          - StakeOf(stakes, c))])
    else s
  }

  /** An unstake writes the reward but leaves the closing mark of the history as it is. */
  function UnstakeState(stakes: Stakes, s: State, c: Address, epoch: nat, sid: nat, reward: nat): State {
    var k := (sid, c, epoch);
    var s' := Participate(UnstakeRow(stakes, s, c, sid, reward), k);
    s'.(histories := s'.histories[k := s'.histories[k].(reward := reward)],
        cumulativeUnstaked := s.cumulativeUnstaked + StakeOf(stakes, c), currentStaked := s.currentStaked
            - StakeOf(stakes, c))
  }

  function Step(stakes: Stakes, s: State, e: Event): State {
    match e
    case Staked(c, epoch, sid) => StakeState(stakes, s, c, epoch, sid)
    case Checkpoint(c, epoch, sids, rewards) => CheckpointState(s, c, epoch, sids, rewards)
    case RewardClaimed(sid, reward) => ClaimState(s, sid, reward)
    case Unstaked(c, epoch, sid, reward) => UnstakeState(stakes, s, c, epoch, sid, reward)
  }

  function Run(stakes: Stakes, es: seq<Event>): State {
    if es == [] then EMPTY else Step(stakes, Run(stakes, es[..|es| - 1]), es[|es| - 1])
  }

  /** Surplus rewards are never read. */
  lemma RewardAllReads(s: State, c: Address, epoch: nat, sids: seq<nat>, rewards: seq<nat>)
    requires |sids| <= |rewards|
    ensures RewardAll(s, c, epoch, sids, rewards[..|sids|]) == RewardAll(s, c, epoch, sids, rewards)
  {
    if sids != [] {
      var n := |sids| - 1;
      assert rewards[..|sids|][..n] == rewards[..n];
    }
  }

  // ----- active lists ------------------------------------------------------

  lemma {:induction false} RewardAllKeepsActive(s: State, c: Address, epoch: nat, sids: seq<nat>, rewards: seq<nat>)
    requires |sids| <= |rewards|
    ensures RewardAll(s, c, epoch, sids, rewards).active == s.active
  {
    if sids != [] {
      RewardAllKeepsActive(s, c, epoch, sids[..|sids| - 1], rewards[..|sids| - 1]);
    }
  }

  lemma {:induction false} CloseAllKeepsActive(s: State, c: Address, epoch: nat, sids: seq<nat>, handled: seq<nat>)
    ensures CloseAll(s, c, epoch, sids, handled).active == s.active
  {
    if sids != [] {
      CloseAllKeepsActive(s, c, epoch, sids[..|sids| - 1], handled);
    }
  }

  /** What a checkpoint does to the active lists. */
  lemma CheckpointActive(s: State, c: Address, epoch: nat, sids: seq<nat>, rewards: seq<nat>)
    requires |sids| <= |rewards|
    ensures CheckpointState(s, c, epoch, sids, rewards).active
         == if (c, epoch) in s.active then RollOver(s, c, epoch).active else s.active
  {
    RewardAllKeepsActive(s, c, epoch, sids, rewards);
    var s1 := RewardAll(s, c, epoch, sids, rewards);
    if (c, epoch) in s1.active {
      CloseAllKeepsActive(s1, c, epoch, s1.active[(c, epoch)], sids);
    }
  }

  /**
   A checkpoint of an epoch with a list makes the next list exactly the union, those staked for the next epoch first,
   and touches no other list.
   */
  lemma CheckpointUnitesLists(s: State, c: Address, epoch: nat, sids: seq<nat>, rewards: seq<nat>)
    requires |sids| <= |rewards| && (c, epoch) in s.active
    ensures var s' := CheckpointState(s, c, epoch, sids, rewards);
            && Elems(ActiveAt(s', c, epoch + 1)) == Elems(ActiveAt(s, c, epoch)) + Elems(ActiveAt(s, c, epoch + 1))
            && ActiveAt(s, c, epoch + 1) <= ActiveAt(s', c, epoch + 1)
            && ((c, epoch + 1) !in s.active ==> ActiveAt(s', c, epoch + 1) == ActiveAt(s, c, epoch))
            && forall d: Address, n: nat :: (d, n) != (c, epoch + 1) ==> ActiveAt(s', d, n) == ActiveAt(s, d, n)
  {
    CheckpointActive(s, c, epoch, sids, rewards);
    MergeUnites(ActiveAt(s, c, epoch + 1), ActiveAt(s, c, epoch));
  }

  ghost predicate ListsDistinct(s: State) {
    forall k :: k in s.active ==> NoDup(s.active[k])
  }

  /** No active list of any run names a service twice. */
  lemma {:induction false} RunListsDistinct(stakes: Stakes, es: seq<Event>)
    ensures ListsDistinct(Run(stakes, es))
  {
    if es != [] {
      var s, e := Run(stakes, es[..|es| - 1]), es[|es| - 1];
      RunListsDistinct(stakes, es[..|es| - 1]);
      match e
      case Staked(c, epoch, sid) =>
        AddOnceAdds(ActiveAt(s, c, epoch), sid);
        assert StakeState(stakes, s, c, epoch, sid).active
            == s.active[(c, epoch) := AddOnce(ActiveAt(s, c, epoch), sid)];
      case Checkpoint(c, epoch, sids, rewards) =>
        if |sids| <= |rewards| {
          CheckpointActive(s, c, epoch, sids, rewards);
          MergeUnites(ActiveAt(s, c, epoch + 1), ActiveAt(s, c, epoch));
        }
      case RewardClaimed(sid, reward) => assert ClaimState(s, sid, reward).active == s.active;
      case Unstaked(c, epoch, sid, reward) => assert UnstakeState(stakes, s, c, epoch, sid, reward).active == s.active;
    }
  }

  lemma ListsOnlyGrow(stakes: Stakes, s: State, e: Event, c: Address, epoch: nat)
    ensures Elems(ActiveAt(s, c, epoch)) <= Elems(ActiveAt(Step(stakes, s, e), c, epoch))
  {
    match e
    case Staked(d, n, sid) =>
      AddOnceAdds(ActiveAt(s, d, n), sid);
      assert StakeState(stakes, s, d, n, sid).active == s.active[(d, n) := AddOnce(ActiveAt(s, d, n), sid)];
    case Checkpoint(d, n, sids, rewards) =>
      if |sids| <= |rewards| {
        if (d, n) in s.active {
          CheckpointUnitesLists(s, d, n, sids, rewards);
        } else {
          CheckpointActive(s, d, n, sids, rewards);
        }
      }
    case RewardClaimed(sid, reward) => assert ClaimState(s, sid, reward).active == s.active;
    case Unstaked(d, n, sid, reward) => assert UnstakeState(stakes, s, d, n, sid, reward).active == s.active;
  }

  /** The state after further events. */
  function RunFrom(stakes: Stakes, s: State, es: seq<Event>): State
    decreases |es|
  {
    if es == [] then s else RunFrom(stakes, Step(stakes, s, es[0]), es[1..])
  }

  /** How many completed checkpoints, epoch after epoch from `epoch` on, a contract has in the events. */
  function Carried(es: seq<Event>, c: Address, epoch: nat): nat
    decreases |es|
  {
    if es == [] then 0
    else if Completes(es[0]) && es[0].c == c && es[0].epoch == epoch then 1 + Carried(es[1..], c, epoch + 1)
    else Carried(es[1..], c, epoch)
  }

  lemma CarriedByCheckpoint(s: State, e: Event, c: Address, n: nat, sid: nat)
    requires Completes(e) && e.c == c && e.epoch == n && sid in ActiveAt(s, c, n)
    ensures sid in ActiveAt(CheckpointState(s, c, n, e.sids, e.rewards), c, n + 1)
  {
    if (c, n) in s.active {
      CheckpointUnitesLists(s, c, n, e.sids, e.rewards);
      assert sid in Elems(ActiveAt(s, c, n));
    }
  }

  lemma ListedStays(stakes: Stakes, s: State, e: Event, c: Address, n: nat, sid: nat)
    requires sid in ActiveAt(s, c, n)
    ensures sid in ActiveAt(Step(stakes, s, e), c, n)
  {
    ListsOnlyGrow(stakes, s, e, c, n);
    assert sid in Elems(ActiveAt(s, c, n));
  }

  /**
   A service on an epoch's list stays listed through consecutive checkpoints of its contract, whatever
   other events come between them, from any state.
   */
  lemma {:induction false} StaysListed(stakes: Stakes, s: State, es: seq<Event>, c: Address, epoch: nat, sid: nat)
    requires sid in ActiveAt(s, c, epoch)
    ensures sid in ActiveAt(RunFrom(stakes, s, es), c, epoch + Carried(es, c, epoch))
    decreases |es|
  {
    if es != [] {
      var e := es[0];
      if Completes(e) && e.c == c && e.epoch == epoch {
        CarriedByCheckpoint(s, e, c, epoch, sid);
        StaysListed(stakes, Step(stakes, s, e), es[1..], c, epoch + 1, sid);
      } else {
        ListedStays(stakes, s, e, c, epoch, sid);
        StaysListed(stakes, Step(stakes, s, e), es[1..], c, epoch, sid);
      }
    }
  }

  // ----- what a checkpoint records -----------------------------------------

  lemma WriteOnly(s: State, k: Key, h: History, j: Key)
    ensures k in Write(s, k, h).histories && Write(s, k, h).histories[k] == h
    ensures j != k ==> (j in Write(s, k, h).histories <==> j in s.histories)
    ensures j != k && j in s.histories ==> Write(s, k, h).histories[j] == s.histories[j]
  {
  }

  ghost predicate SameContracts(s: State, s': State) {
    forall sid, c :: Migrated(s, sid, c) == Migrated(s', sid, c)
  }

  lemma {:induction false} RewardAllRecords(s: State, c: Address, epoch: nat, sids: seq<nat>, rewards: seq<nat>, i: nat)
    requires |sids| <= |rewards| && i < |sids| && forall j :: i < j < |sids| ==> sids[j] != sids[i]
    ensures var k, s' := (sids[i], c, epoch), RewardAll(s, c, epoch, sids, rewards);
            k in s'.histories && s'.histories[k] == History(rewards[i], true)
    decreases |sids|
  {
    var n := |sids| - 1;
    var s' := RewardAll(s, c, epoch, sids[..n], rewards[..n]);
    WriteOnly(Earn(s', sids[n], rewards[n]), (sids[n], c, epoch), History(rewards[n], true), (sids[i], c, epoch));
    if i < n {
      RewardAllRecords(s, c, epoch, sids[..n], rewards[..n], i);
    }
  }

  lemma {:induction false} RewardAllKeepsContracts(s: State, c: Address, epoch: nat, sids: seq<nat>, rewards: seq<nat>)
    requires |sids| <= |rewards|
    ensures SameContracts(s, RewardAll(s, c, epoch, sids, rewards))
  {
    if sids != [] {
      RewardAllKeepsContracts(s, c, epoch, sids[..|sids| - 1], rewards[..|sids| - 1]);
    }
  }

  lemma {:induction false} CloseAllKeepsContracts(s: State, c: Address, epoch: nat, sids: seq<nat>, handled: seq<nat>)
    ensures SameContracts(s, CloseAll(s, c, epoch, sids, handled))
  {
    if sids != [] {
      CloseAllKeepsContracts(s, c, epoch, sids[..|sids| - 1], handled);
    }
  }

  /** The zero-reward pass writes the histories of exactly the active, unrewarded, unmigrated services. */
  lemma {:induction false} CloseAllRecords(s: State, c: Address, epoch: nat, sids: seq<nat>, handled: seq<nat>, j: Key)
    ensures var s' := CloseAll(s, c, epoch, sids, handled);
            if j.0 in sids && j.0 !in handled && !Migrated(s, j.0, c) && j.1 == c && j.2 == epoch then
              j in s'.histories && s'.histories[j] == History(0, true)
            else
              (j in s'.histories <==> j in s.histories) && (j in s.histories ==> s'.histories[j] == s.histories[j])
  {
    if sids != [] {
      var n := |sids| - 1;
      CloseAllRecords(s, c, epoch, sids[..n], handled, j);
      CloseAllKeepsContracts(s, c, epoch, sids[..n], handled);
      var s' := CloseAll(s, c, epoch, sids[..n], handled);
      WriteOnly(s', (sids[n], c, epoch), History(0, true), j);
      assert Migrated(s', sids[n], c) == Migrated(s, sids[n], c);
    }
  }

  /**
   After a checkpoint with distinct service ids every rewarded service has a closed history with its
   reward, and every listed service that is neither rewarded nor staked elsewhere a closed one with 0.
   */
  lemma CheckpointCloses(s: State, c: Address, epoch: nat, sids: seq<nat>, rewards: seq<nat>, sid: nat)
    requires |sids| <= |rewards| && NoDup(sids)
    ensures var h, k := CheckpointState(s, c, epoch, sids, rewards).histories, (sid, c, epoch);
            && (forall i :: 0 <= i < |sids| && sids[i] == sid ==> k in h && h[k] == History(rewards[i], true))
            && (sid !in sids && sid in ActiveAt(s, c, epoch) && !Migrated(s, sid, c)
                ==> k in h && h[k] == History(0, true))
  {
    var s1, k := RewardAll(s, c, epoch, sids, rewards), (sid, c, epoch);
    RewardAllKeepsActive(s, c, epoch, sids, rewards);
    RewardAllKeepsContracts(s, c, epoch, sids, rewards);
    assert Migrated(s1, sid, c) == Migrated(s, sid, c);
    forall i | 0 <= i < |sids| && sids[i] == sid ensures k in s1.histories
        && s1.histories[k] == History(rewards[i], true) {
      RewardAllRecords(s, c, epoch, sids, rewards, i);
    }
    if (c, epoch) in s1.active {
      CloseAllRecords(s1, c, epoch, s1.active[(c, epoch)], sids, k);
    }
  }

  lemma {:induction false} RewardAllLeaves(s: State, c: Address, epoch: nat, sids: seq<nat>, rewards: seq<nat>, j: Key)
    requires |sids| <= |rewards| && (j.1 == c && j.2 == epoch ==> j.0 !in sids)
    ensures var s' := RewardAll(s, c, epoch, sids, rewards);
            (j in s'.histories <==> j in s.histories) && (j in s.histories ==> s'.histories[j] == s.histories[j])
  {
    if sids != [] {
      var n := |sids| - 1;
      RewardAllLeaves(s, c, epoch, sids[..n], rewards[..n], j);
      WriteOnly(Earn(RewardAll(s, c, epoch, sids[..n], rewards[..n]), sids[n], rewards[n]), (sids[n], c, epoch),
                History(rewards[n], true), j);
    }
  }

  /** ... and no other history is touched: not a migrated service's, not another epoch's or contract's. */
  lemma CheckpointLeaves(s: State, c: Address, epoch: nat, sids: seq<nat>, rewards: seq<nat>, j: Key)
    requires |sids| <= |rewards|
    requires j.1 == c && j.2 == epoch ==> j.0 !in sids && (j.0 in ActiveAt(s, c, epoch) ==> Migrated(s, j.0, c))
    ensures var h := CheckpointState(s, c, epoch, sids, rewards).histories;
            (j in h <==> j in s.histories) && (j in h ==> h[j] == s.histories[j])
  {
    var s1 := RewardAll(s, c, epoch, sids, rewards);
    RewardAllLeaves(s, c, epoch, sids, rewards, j);
    RewardAllKeepsActive(s, c, epoch, sids, rewards);
    RewardAllKeepsContracts(s, c, epoch, sids, rewards);
    assert Migrated(s1, j.0, c) == Migrated(s, j.0, c);
    if (c, epoch) in s1.active {
      CloseAllRecords(s1, c, epoch, s1.active[(c, epoch)], sids, j);
    }
  }

  lemma UnstakeWrites(stakes: Stakes, s: State, c: Address, epoch: nat, sid: nat, reward: nat)
    ensures var s', k := UnstakeState(stakes, s, c, epoch, sid, reward), (sid, c, epoch);
            k in s'.histories && s'.histories[k].reward == reward
  {
  }

  /** The events that may write the reward of a history that exists already. */
  predicate Rewrites(e: Event, k: Key) {
    (e.Unstaked? && (e.sid, e.c, e.epoch) == k) || (Completes(e) && (e.c, e.epoch) == (k.1, k.2))
  }

  lemma OthersLeaveHistory(stakes: Stakes, s: State, e: Event, k: Key)
    requires k in s.histories && !Rewrites(e, k)
    ensures k in Step(stakes, s, e).histories && Step(stakes, s, e).histories[k] == s.histories[k]
  {
    if Completes(e) {
      CheckpointLeaves(s, e.c, e.epoch, e.sids, e.rewards, k);
    }
  }

  lemma {:induction false} HistoryStays(stakes: Stakes, s: State, es: seq<Event>, k: Key)
    requires k in s.histories && forall e :: e in es ==> !Rewrites(e, k)
    ensures k in RunFrom(stakes, s, es).histories && RunFrom(stakes, s, es).histories[k] == s.histories[k]
    decreases |es|
  {
    if es != [] {
      OthersLeaveHistory(stakes, s, es[0], k);
      HistoryStays(stakes, Step(stakes, s, es[0]), es[1..], k);
    }
  }

  /** What a checkpoint leaves of the reward in a history, whatever put it there. */
  lemma RewardKeptIff(m: State, k: Key, sids: seq<nat>, rewards: seq<nat>)
    requires k in m.histories && |sids| <= |rewards| && NoDup(sids)
    ensures var s', reward := CheckpointState(m, k.1, k.2, sids, rewards), m.histories[k].reward;
            k in s'.histories
            && (s'.histories[k].reward == reward <==>
                if k.0 in sids then exists i :: 0 <= i < |sids| && sids[i] == k.0 && rewards[i] == reward
                else reward == 0 || k.0 !in ActiveAt(m, k.1, k.2) || Migrated(m, k.0, k.1))
  {
    CheckpointCloses(m, k.1, k.2, sids, rewards, k.0);
    if k.0 in sids {
      var i :| 0 <= i < |sids| && sids[i] == k.0;
      assert forall j :: 0 <= j < |sids| && sids[j] == k.0 ==> j == i;
    } else if k.0 !in ActiveAt(m, k.1, k.2) || Migrated(m, k.0, k.1) {
      CheckpointLeaves(m, k.1, k.2, sids, rewards, k);
    }
  }

  /**
   Whether the reward an unstake records survives the next checkpoint of its contract and epoch, whatever
   comes between them: a checkpoint that rewards the service must pay the same; any other overwrites the
   reward with 0 unless it is 0, the service is not on the list by then, or it is staked elsewhere by then.
   */
  lemma UnstakeRewardSurvivesIff(stakes: Stakes, s: State, c: Address, epoch: nat, sid: nat, reward: nat,
                                 mid: seq<Event>, sids: seq<nat>, rewards: seq<nat>)
    requires forall e :: e in mid ==> !Rewrites(e, (sid, c, epoch))
    requires |sids| <= |rewards| && NoDup(sids)
    ensures var m := RunFrom(stakes, UnstakeState(stakes, s, c, epoch, sid, reward), mid);
            var s', k := CheckpointState(m, c, epoch, sids, rewards), (sid, c, epoch);
            k in s'.histories
            && (s'.histories[k].reward == reward <==>
                if sid in sids then exists i :: 0 <= i < |sids| && sids[i] == sid && rewards[i] == reward
                else reward == 0 || sid !in ActiveAt(m, c, epoch) || Migrated(m, sid, c))
  {
    var u, k := UnstakeState(stakes, s, c, epoch, sid, reward), (sid, c, epoch);
    UnstakeWrites(stakes, s, c, epoch, sid, reward);
    HistoryStays(stakes, u, mid, k);
    RewardKeptIff(RunFrom(stakes, u, mid), k, sids, rewards);
  }

  lemma RunAppend(stakes: Stakes, es: seq<Event>, e: Event)
    ensures Run(stakes, es + [e]) == Step(stakes, Run(stakes, es), e)
  {
    assert (es + [e])[..|es|] == es;
  }

  lemma StakedAndUnstaked(stakes: Stakes, c: Address, epoch: nat, sid: nat, reward: nat)
    ensures var s := StakeState(stakes, EMPTY, c, epoch, sid);
            && Run(stakes, [Staked(c, epoch, sid)]) == s
            && Run(stakes, [Staked(c, epoch, sid), Unstaked(c, epoch, sid, reward)])
                == UnstakeState(stakes, s, c, epoch, sid, reward)
  {
    RunAppend(stakes, [], Staked(c, epoch, sid));
    RunAppend(stakes, [Staked(c, epoch, sid)], Unstaked(c, epoch, sid, reward));
    assert [Staked(c, epoch, sid)] + [Unstaked(c, epoch, sid, reward)]
        == [Staked(c, epoch, sid), Unstaked(c, epoch, sid, reward)];
    assert [] + [Staked(c, epoch, sid)] == [Staked(c, epoch, sid)];
  }

  /** Staked, unstaked with a reward, checkpoint: the reward is overwritten with 0. */
  lemma UnstakeRewardLost(stakes: Stakes, c: Address, epoch: nat, sid: nat, reward: nat)
    requires reward > 0
    ensures var es := [Staked(c, epoch, sid), Unstaked(c, epoch, sid, reward), Checkpoint(c, epoch, [], [])];
            var h := Run(stakes, es).histories;
            (sid, c, epoch) in h && h[(sid, c, epoch)].reward == 0
  {
    var s := StakeState(stakes, EMPTY, c, epoch, sid);
    var es, e := [Staked(c, epoch, sid), Unstaked(c, epoch, sid, reward)], Checkpoint(c, epoch, [], []);
    StakedAndUnstaked(stakes, c, epoch, sid, reward);
    RunAppend(stakes, es, e);
    assert es + [e] == [Staked(c, epoch, sid), Unstaked(c, epoch, sid, reward), Checkpoint(c, epoch, [], [])];
    CheckpointCloses(UnstakeState(stakes, s, c, epoch, sid, reward), c, epoch, [], [], sid);
  }

  /** ... but staked with another contract in between, the service keeps it. */
  lemma UnstakeRewardKeptByRestaking(stakes: Stakes, c: Address, d: Address, epoch: nat, n: nat, sid: nat, reward: nat)
    requires d != c
    ensures var es :=
      [Staked(c, epoch, sid), Unstaked(c, epoch, sid, reward), Staked(d, n, sid), Checkpoint(c, epoch, [], [])];
            var h := Run(stakes, es).histories;
            (sid, c, epoch) in h && h[(sid, c, epoch)].reward == reward
  {
    var u := UnstakeState(stakes, StakeState(stakes, EMPTY, c, epoch, sid), c, epoch, sid, reward);
    var m := StakeState(stakes, u, d, n, sid);
    var es, again, e :=
      [Staked(c, epoch, sid), Unstaked(c, epoch, sid, reward)], Staked(d, n, sid), Checkpoint(c, epoch, [], []);
    StakedAndUnstaked(stakes, c, epoch, sid, reward);
    RunAppend(stakes, es, again);
    RunAppend(stakes, es + [again], e);
    assert es + [again] + [e]
        == [Staked(c, epoch, sid), Unstaked(c, epoch, sid, reward), Staked(d, n, sid), Checkpoint(c, epoch, [], [])];
    assert m.histories[(sid, c, epoch)].reward == reward && Migrated(m, sid, c);
    RewardKeptIff(m, (sid, c, epoch), [], []);
  }

  // ----- aggregates --------------------------------------------------------

  function StakedBy(svc: Service): int { svc.staked }

  function EarnedBy(svc: Service): int { svc.earned }

  lemma SaveTotals(services: map<nat, Service>, sid: nat, svc: Service)
    ensures TotalBy(services[sid := svc], StakedBy)
         == TotalBy(services, StakedBy) - (if sid in services then services[sid].staked else 0) + svc.staked
    ensures TotalBy(services[sid := svc], EarnedBy)
         == TotalBy(services, EarnedBy) - (if sid in services then services[sid].earned else 0) + svc.earned
  {
    TotalByUpdate(services, StakedBy, sid, svc);
    TotalByUpdate(services, EarnedBy, sid, svc);
  }

  /** Services, their stakes and their earnings in sum, and the global fields. */
  ghost predicate SameSums(s: State, s': State) {
    && s'.services.Keys == s.services.Keys
    && TotalBy(s'.services, StakedBy) == TotalBy(s.services, StakedBy)
    && TotalBy(s'.services, EarnedBy) == TotalBy(s.services, EarnedBy)
    && SameGlobals(s, s')
  }

  ghost predicate SameGlobals(s: State, s': State) {
    && s'.cumulativeStaked == s.cumulativeStaked && s'.cumulativeUnstaked == s.cumulativeUnstaked
    && s'.currentStaked == s.currentStaked && s'.totalRewards == s.totalRewards
  }

  lemma ParticipateKeepsSums(s: State, k: Key)
    ensures SameSums(s, Participate(s, k))
  {
    if k !in s.histories && k.0 in s.services {
      SaveTotals(s.services, k.0, s.services[k.0].(epochs := s.services[k.0].epochs + 1));
    }
  }

  lemma WriteKeepsSums(s: State, k: Key, h: History)
    ensures SameSums(s, Write(s, k, h))
  {
    ParticipateKeepsSums(s, k);
  }

  lemma {:induction false} CloseAllKeepsSums(s: State, c: Address, epoch: nat, sids: seq<nat>, handled: seq<nat>)
    ensures SameSums(s, CloseAll(s, c, epoch, sids, handled))
  {
    if sids != [] {
      var n := |sids| - 1;
      CloseAllKeepsSums(s, c, epoch, sids[..n], handled);
      WriteKeepsSums(CloseAll(s, c, epoch, sids[..n], handled), (sids[n], c, epoch), History(0, true));
    }
  }

  /** The rewards of a checkpoint that go to services with no Service row. */
  function UnknownRewards(s: State, sids: seq<nat>, rewards: seq<nat>): int
    requires |sids| <= |rewards|
  {
    if sids == [] then 0
    else
      var n := |sids| - 1;
      UnknownRewards(s, sids[..n], rewards[..n]) + (if sids[n] in s.services then 0 else rewards[n])
  }

  lemma EarnSums(s: State, sid: nat, reward: int)
    ensures Earn(s, sid, reward).services.Keys == s.services.Keys && SameGlobals(s, Earn(s, sid, reward))
    ensures TotalBy(Earn(s, sid, reward).services, StakedBy) == TotalBy(s.services, StakedBy)
    ensures TotalBy(Earn(s, sid, reward).services, EarnedBy) == TotalBy(s.services, EarnedBy)
        + (if sid in s.services then reward else 0)
  {
    if sid in s.services {
      SaveTotals(s.services, sid, s.services[sid].(earned := s.services[sid].earned + reward));
    }
  }

  lemma {:induction false} RewardAllSums(s: State, c: Address, epoch: nat, sids: seq<nat>, rewards: seq<nat>)
    requires |sids| <= |rewards|
    ensures var s' := RewardAll(s, c, epoch, sids, rewards);
            && s'.services.Keys == s.services.Keys && SameGlobals(s, s')
            && TotalBy(s'.services, StakedBy) == TotalBy(s.services, StakedBy)
            && TotalBy(s'.services, EarnedBy)
                == TotalBy(s.services, EarnedBy) + Rewards(rewards[..|sids|]) - UnknownRewards(s, sids, rewards)
  {
    if sids != [] {
      var n := |sids| - 1;
      var s1 := RewardAll(s, c, epoch, sids[..n], rewards[..n]);
      RewardAllSums(s, c, epoch, sids[..n], rewards[..n]);
      assert rewards[..n][..n] == rewards[..n] && rewards[..n + 1][..n] == rewards[..n];
      EarnSums(s1, sids[n], rewards[n]);
      WriteKeepsSums(Earn(s1, sids[n], rewards[n]), (sids[n], c, epoch), History(rewards[n], true));
    }
  }

  lemma CheckpointSums(s: State, c: Address, epoch: nat, sids: seq<nat>, rewards: seq<nat>)
    requires |sids| <= |rewards|
    ensures var s' := CheckpointState(s, c, epoch, sids, rewards);
            && s'.services.Keys == s.services.Keys
            && TotalBy(s'.services, StakedBy) == TotalBy(s.services, StakedBy)
            && TotalBy(s'.services, EarnedBy)
                == TotalBy(s.services, EarnedBy) + Rewards(rewards[..|sids|]) - UnknownRewards(s, sids, rewards)
            && SameGlobals(s.(totalRewards := s.totalRewards + Rewards(rewards[..|sids|])), s')
  {
    RewardAllSums(s, c, epoch, sids, rewards);
    var s1 := RewardAll(s, c, epoch, sids, rewards);
    if (c, epoch) in s1.active {
      CloseAllKeepsSums(s1, c, epoch, s1.active[(c, epoch)], sids);
    }
  }

  /** What a run unstaked for services it has no row of, and the rewards it paid to such services. */
  function UnknownUnstaked(stakes: Stakes, es: seq<Event>): int {
    if es == [] then 0
    else
      var init, e := es[..|es| - 1], es[|es| - 1];
      UnknownUnstaked(stakes, init)
      + (if e.Unstaked? && e.sid !in Run(stakes, init).services then StakeOf(stakes, e.c) else 0)
  }

  function UnknownRewarded(stakes: Stakes, es: seq<Event>): int {
    if es == [] then 0
    else
      var init, e := es[..|es| - 1], es[|es| - 1];
      UnknownRewarded(stakes, init) + (if Completes(e) then UnknownRewards(Run(stakes, init), e.sids, e.rewards) else 0)
  }

  lemma StakeRowSums(stakes: Stakes, s: State, c: Address, epoch: nat, sid: nat)
    ensures var s' := StakeRow(stakes, s, c, epoch, sid);
            && TotalBy(s'.services, StakedBy) == TotalBy(s.services, StakedBy) + StakeOf(stakes, c)
            && TotalBy(s'.services, EarnedBy) == TotalBy(s.services, EarnedBy) && SameGlobals(s, s')
  {
    var svc := if sid in s.services then s.services[sid] else NEW_SERVICE;
    SaveTotals(s.services, sid, svc.(staked := svc.staked + StakeOf(stakes, c), contract := Some(c)));
  }

  lemma StakeSums(stakes: Stakes, s: State, c: Address, epoch: nat, sid: nat)
    ensures var s', amount := StakeState(stakes, s, c, epoch, sid), StakeOf(stakes, c);
            && TotalBy(s'.services, StakedBy) == TotalBy(s.services, StakedBy) + amount
            && TotalBy(s'.services, EarnedBy) == TotalBy(s.services, EarnedBy)
            && SameGlobals(s.(cumulativeStaked := s.cumulativeStaked + amount, currentStaked := s.currentStaked
                + amount), s')
  {
    StakeRowSums(stakes, s, c, epoch, sid);
    ParticipateKeepsSums(StakeRow(stakes, s, c, epoch, sid), (sid, c, epoch));
  }

  lemma UnstakeRowSums(stakes: Stakes, s: State, c: Address, sid: nat, reward: nat)
    ensures var s' := UnstakeRow(stakes, s, c, sid, reward);
            && TotalBy(s'.services, StakedBy)
                == TotalBy(s.services, StakedBy) - (if sid in s.services then StakeOf(stakes, c) else 0)
            && TotalBy(s'.services, EarnedBy) == TotalBy(s.services, EarnedBy) && SameGlobals(s, s')
  {
    if sid in s.services {
      var svc := s.services[sid];
      SaveTotals(s.services, sid,
                 svc.(contract := None, claimed := svc.claimed + reward, staked := svc.staked - StakeOf(stakes, c)));
    }
  }

  lemma UnstakeSums(stakes: Stakes, s: State, c: Address, epoch: nat, sid: nat, reward: nat)
    ensures var s', amount := UnstakeState(stakes, s, c, epoch, sid, reward), StakeOf(stakes, c);
            && TotalBy(s'.services, StakedBy)
                == TotalBy(s.services, StakedBy) - (if sid in s.services then amount else 0)
            && TotalBy(s'.services, EarnedBy) == TotalBy(s.services, EarnedBy)
            && SameGlobals(s.(cumulativeUnstaked := s.cumulativeUnstaked + amount, currentStaked := s.currentStaked
                - amount), s')
  {
    UnstakeRowSums(stakes, s, c, sid, reward);
    ParticipateKeepsSums(UnstakeRow(stakes, s, c, sid, reward), (sid, c, epoch));
  }

  lemma ClaimSums(s: State, sid: nat, reward: nat)
    ensures SameSums(s, ClaimState(s, sid, reward))
  {
    if sid in s.services {
      SaveTotals(s.services, sid, s.services[sid].(claimed := s.services[sid].claimed + reward));
    }
  }

  ghost predicate Aggregates(stakes: Stakes, es: seq<Event>) {
    var s := Run(stakes, es);
    && s.currentStaked == s.cumulativeStaked - s.cumulativeUnstaked
    && s.currentStaked == TotalBy(s.services, StakedBy) - UnknownUnstaked(stakes, es)
    && s.totalRewards == TotalBy(s.services, EarnedBy) + UnknownRewarded(stakes, es)
  }

  /**
   For every run: current stake is staked less unstaked; it is the sum over services less what was
   unstaked for unknown ones; total rewards are the sum of earnings plus what unknown services got.
   */
  lemma {:induction false} RunAggregates(stakes: Stakes, es: seq<Event>)
    ensures Aggregates(stakes, es)
  {
    if es != [] {
      var init, e := es[..|es| - 1], es[|es| - 1];
      var s := Run(stakes, init);
      RunAggregates(stakes, init);
      match e
      case Staked(c, epoch, sid) => StakeSums(stakes, s, c, epoch, sid);
      case Checkpoint(c, epoch, sids, rewards) =>
        if Completes(e) {
          CheckpointSums(s, c, epoch, sids, rewards);
        }
      case RewardClaimed(sid, reward) => ClaimSums(s, sid, reward);
      case Unstaked(c, epoch, sid, reward) => UnstakeSums(stakes, s, c, epoch, sid, reward);
    }
  }

  /** Every service was staked before it was rewarded or unstaked. */
  ghost predicate StakedFirst(stakes: Stakes, es: seq<Event>) {
    forall i :: 0 <= i < |es| ==>
      var s, e := Run(stakes, es[..i]), es[i];
      && (e.Unstaked? ==> e.sid in s.services)
      && (Completes(e) ==> forall sid :: sid in e.sids ==> sid in s.services)
  }

  lemma StakedFirstInit(stakes: Stakes, es: seq<Event>)
    requires StakedFirst(stakes, es) && es != []
    ensures StakedFirst(stakes, es[..|es| - 1])
    ensures var s, e := Run(stakes, es[..|es| - 1]), es[|es| - 1];
            (e.Unstaked? ==> e.sid in s.services)
                && (Completes(e) ==> forall sid :: sid in e.sids ==> sid in s.services)
  {
    var init := es[..|es| - 1];
    assert forall i :: 0 <= i < |init| ==> init[i] == es[i] && init[..i] == es[..i];
  }

  lemma {:induction false} KnownRewards(s: State, sids: seq<nat>, rewards: seq<nat>)
    requires |sids| <= |rewards| && forall sid :: sid in sids ==> sid in s.services
    ensures UnknownRewards(s, sids, rewards) == 0
  {
    if sids != [] {
      KnownRewards(s, sids[..|sids| - 1], rewards[..|sids| - 1]);
    }
  }

  lemma {:induction false} NothingUnknown(stakes: Stakes, es: seq<Event>)
    requires StakedFirst(stakes, es)
    ensures UnknownUnstaked(stakes, es) == 0 && UnknownRewarded(stakes, es) == 0
  {
    if es != [] {
      var init, e := es[..|es| - 1], es[|es| - 1];
      StakedFirstInit(stakes, es);
      NothingUnknown(stakes, init);
      if Completes(e) {
        KnownRewards(Run(stakes, init), e.sids, e.rewards);
      }
    }
  }

  /** When services are staked before they are rewarded or unstaked, the global fields are the sums over services. */
  lemma StakedFirstAggregates(stakes: Stakes, es: seq<Event>)
    requires StakedFirst(stakes, es)
    ensures var s := Run(stakes, es);
            && s.cumulativeStaked - s.cumulativeUnstaked == s.currentStaked == TotalBy(s.services, StakedBy)
            && s.totalRewards == TotalBy(s.services, EarnedBy)
  {
    RunAggregates(stakes, es);
    NothingUnknown(stakes, es);
  }

  // ----- epochs participated -----------------------------------------------

  ghost function HistoriesOf(h: map<Key, History>, sid: nat): set<Key> {
    set k | k in h && k.0 == sid
  }

  ghost predicate Participation(s: State) {
    && (forall k :: k in s.histories ==> k.0 in s.services)
    && (forall sid :: sid in s.services ==> s.services[sid].epochs == |HistoriesOf(s.histories, sid)|)
  }

  lemma NewHistory(h: map<Key, History>, k: Key, v: History, sid: nat)
    requires k !in h
    ensures |HistoriesOf(h[k := v], sid)| == |HistoriesOf(h, sid)| + if sid == k.0 then 1 else 0
  {
    if sid == k.0 {
      assert HistoriesOf(h[k := v], sid) == HistoriesOf(h, sid) + {k};
    } else {
      assert HistoriesOf(h[k := v], sid) == HistoriesOf(h, sid);
    }
  }

  lemma ParticipateKeeps(s: State, k: Key)
    requires Participation(s) && k.0 in s.services
    ensures Participation(Participate(s, k)) && k in Participate(s, k).histories
    ensures Participate(s, k).services.Keys == s.services.Keys
  {
    if k !in s.histories {
      var s' := Participate(s, k);
      forall sid | sid in s'.services ensures s'.services[sid].epochs == |HistoriesOf(s'.histories, sid)| {
        NewHistory(s.histories, k, s'.histories[k], sid);
      }
    }
  }

  lemma RewriteKeeps(s: State, k: Key, h: History)
    requires Participation(s) && k in s.histories
    ensures Participation(s.(histories := s.histories[k := h]))
  {
    var s' := s.(histories := s.histories[k := h]);
    forall sid | sid in s'.services ensures s'.services[sid].epochs == |HistoriesOf(s'.histories, sid)| {
      assert HistoriesOf(s'.histories, sid) == HistoriesOf(s.histories, sid);
    }
  }

  lemma WriteKeeps(s: State, k: Key, h: History)
    requires Participation(s) && k.0 in s.services
    ensures Participation(Write(s, k, h)) && Write(s, k, h).services.Keys == s.services.Keys
  {
    ParticipateKeeps(s, k);
    RewriteKeeps(Participate(s, k), k, h);
  }

  lemma SaveServiceKeeps(s: State, sid: nat, svc: Service)
    requires Participation(s) && sid in s.services && svc.epochs == s.services[sid].epochs
    ensures Participation(s.(services := s.services[sid := svc]))
  {
  }

  lemma NewServiceKeeps(s: State, sid: nat, svc: Service)
    requires Participation(s) && sid !in s.services && svc.epochs == 0
    ensures Participation(s.(services := s.services[sid := svc]))
  {
    assert HistoriesOf(s.histories, sid) == {};
  }

  lemma {:induction false} RewardAllParticipation(s: State, c: Address, epoch: nat, sids: seq<nat>, rewards: seq<nat>)
    requires |sids| <= |rewards| && Participation(s) && forall sid :: sid in sids ==> sid in s.services
    ensures Participation(RewardAll(s, c, epoch, sids, rewards))
    ensures RewardAll(s, c, epoch, sids, rewards).services.Keys == s.services.Keys
  {
    if sids != [] {
      var n := |sids| - 1;
      RewardAllParticipation(s, c, epoch, sids[..n], rewards[..n]);
      var s1 := RewardAll(s, c, epoch, sids[..n], rewards[..n]);
      SaveServiceKeeps(s1, sids[n], s1.services[sids[n]].(earned := s1.services[sids[n]].earned + rewards[n]));
      WriteKeeps(Earn(s1, sids[n], rewards[n]), (sids[n], c, epoch), History(rewards[n], true));
    }
  }

  lemma {:induction false} CloseAllParticipation(s: State, c: Address, epoch: nat, sids: seq<nat>, handled: seq<nat>)
    requires Participation(s) && forall sid :: sid in sids ==> sid in s.services
    ensures Participation(CloseAll(s, c, epoch, sids, handled))
    ensures CloseAll(s, c, epoch, sids, handled).services.Keys == s.services.Keys
  {
    if sids != [] {
      var n := |sids| - 1;
      CloseAllParticipation(s, c, epoch, sids[..n], handled);
      WriteKeeps(CloseAll(s, c, epoch, sids[..n], handled), (sids[n], c, epoch), History(0, true));
    }
  }

  /** Listed services have rows. */
  ghost predicate ListedKnown(s: State) {
    forall k, sid :: k in s.active && sid in s.active[k] ==> sid in s.services
  }

  lemma StakeRowParticipation(stakes: Stakes, s: State, c: Address, epoch: nat, sid: nat)
    requires Participation(s)
    ensures Participation(StakeRow(stakes, s, c, epoch, sid))
  {
    var svc := if sid in s.services then s.services[sid] else NEW_SERVICE;
    svc := svc.(staked := svc.staked + StakeOf(stakes, c), contract := Some(c));
    if sid in s.services {
      SaveServiceKeeps(s, sid, svc);
    } else {
      NewServiceKeeps(s, sid, svc);
    }
    assert Participation(s.(services := s.services[sid := svc]));
  }

  lemma StakeRowListsKnown(stakes: Stakes, s: State, c: Address, epoch: nat, sid: nat)
    requires ListedKnown(s)
    ensures ListedKnown(StakeRow(stakes, s, c, epoch, sid))
  {
    AddOnceAdds(ActiveAt(s, c, epoch), sid);
    var s' := StakeRow(stakes, s, c, epoch, sid);
    forall x | x in s'.active[(c, epoch)] ensures x in s'.services {
      assert x in Elems(AddOnce(ActiveAt(s, c, epoch), sid));
    }
  }

  lemma ParticipateKeepsLists(s: State, k: Key)
    requires ListedKnown(s)
    ensures ListedKnown(Participate(s, k))
  {
    assert Participate(s, k).active == s.active && Participate(s, k).services.Keys == s.services.Keys;
  }

  lemma StakeParticipation(stakes: Stakes, s: State, c: Address, epoch: nat, sid: nat)
    requires Participation(s) && ListedKnown(s)
    ensures Participation(StakeState(stakes, s, c, epoch, sid)) && ListedKnown(StakeState(stakes, s, c, epoch, sid))
  {
    StakeRowParticipation(stakes, s, c, epoch, sid);
    StakeRowListsKnown(stakes, s, c, epoch, sid);
    ParticipateKeeps(StakeRow(stakes, s, c, epoch, sid), (sid, c, epoch));
    ParticipateKeepsLists(StakeRow(stakes, s, c, epoch, sid), (sid, c, epoch));
  }

  lemma UnstakeParticipation(stakes: Stakes, s: State, c: Address, epoch: nat, sid: nat, reward: nat)
    requires Participation(s) && ListedKnown(s) && sid in s.services
    ensures Participation(UnstakeState(stakes, s, c, epoch, sid, reward))
        && ListedKnown(UnstakeState(stakes, s, c, epoch, sid, reward))
  {
    var svc, k := s.services[sid], (sid, c, epoch);
    SaveServiceKeeps(s, sid, svc.(contract := None, claimed := svc.claimed + reward, staked := svc.staked
        - StakeOf(stakes, c)));
    var s1 := UnstakeRow(stakes, s, c, sid, reward);
    ParticipateKeeps(s1, k);
    ParticipateKeepsLists(s1, k);
    var s2 := Participate(s1, k);
    RewriteKeeps(s2, k, s2.histories[k].(reward := reward));
  }

  lemma CheckpointParticipation(s: State, c: Address, epoch: nat, sids: seq<nat>, rewards: seq<nat>)
    requires |sids| <= |rewards| && Participation(s) && ListedKnown(s)
        && forall sid :: sid in sids ==> sid in s.services
    ensures Participation(CheckpointState(s, c, epoch, sids, rewards)) && ListedKnown(CheckpointState(s, c, epoch,
                                                                                                      sids, rewards))
  {
    RewardAllParticipation(s, c, epoch, sids, rewards);
    RewardAllKeepsActive(s, c, epoch, sids, rewards);
    CheckpointActive(s, c, epoch, sids, rewards);
    var s1, s' := RewardAll(s, c, epoch, sids, rewards), CheckpointState(s, c, epoch, sids, rewards);
    if (c, epoch) in s1.active {
      CloseAllParticipation(s1, c, epoch, s1.active[(c, epoch)], sids);
      CheckpointUnitesLists(s, c, epoch, sids, rewards);
      forall k, sid | k in s'.active && sid in s'.active[k] ensures sid in s'.services {
        if k == (c, epoch + 1) {
          assert sid in Elems(ActiveAt(s', c, epoch + 1));
        } else {
          assert ActiveAt(s', k.0, k.1) == ActiveAt(s, k.0, k.1);
        }
      }
    }
  }

  /** totalEpochsParticipated is the number of a service's distinct (contract, epoch) histories. */
  lemma {:induction false} EpochsParticipated(stakes: Stakes, es: seq<Event>)
    requires StakedFirst(stakes, es)
    ensures Participation(Run(stakes, es)) && ListedKnown(Run(stakes, es))
  {
    if es != [] {
      var init, e := es[..|es| - 1], es[|es| - 1];
      var s := Run(stakes, init);
      StakedFirstInit(stakes, es);
      EpochsParticipated(stakes, init);
      match e
      case Staked(c, epoch, sid) => StakeParticipation(stakes, s, c, epoch, sid);
      case Checkpoint(c, epoch, sids, rewards) =>
        if Completes(e) {
          CheckpointParticipation(s, c, epoch, sids, rewards);
        }
      case RewardClaimed(sid, reward) =>
        if sid in s.services {
          SaveServiceKeeps(s, sid, s.services[sid].(claimed := s.services[sid].claimed + reward));
        }
      case Unstaked(c, epoch, sid, reward) => UnstakeParticipation(stakes, s, c, epoch, sid, reward);
    }
  }

  // ----- the handlers ------------------------------------------------------

  class StakingStore {
    const stakes: Stakes
    var services: map<nat, Service>
    var histories: map<Key, History>
    var active: map<(Address, nat), seq<nat>>
    var cumulativeStaked: int
    var cumulativeUnstaked: int
    var currentStaked: int
    var totalRewards: int

    ghost function Abs(): State
      reads this
    {
      State(services, histories, active, cumulativeStaked, cumulativeUnstaked, currentStaked, totalRewards)
    }

    constructor (stakes: Stakes)
      ensures this.stakes == stakes && Abs() == EMPTY
    {
      this.stakes := stakes;
      services, histories, active := map[], map[], map[];
      cumulativeStaked, cumulativeUnstaked, currentStaked, totalRewards := 0, 0, 0, 0;
    }

    method GetOrCreateHistory(k: Key) returns (history: History)
      modifies this
      ensures Abs() == Participate(old(Abs()), k)
      ensures k in histories && history == histories[k]
    {
      if k !in histories {
        histories := histories[k := History(0, false)];
        if k.0 in services {
          services := services[k.0 := services[k.0].(epochs := services[k.0].epochs + 1)];
        }
      }
      history := histories[k];
    }

    method SaveHistory(k: Key, h: History)
      modifies this
      ensures Abs() == Write(old(Abs()), k, h)
    {
      var history := GetOrCreateHistory(k);
      histories := histories[k := h];
    }

    method RewardService(k: Key, reward: nat)
      modifies this
      ensures Abs() == RewardOne(old(Abs()), k, reward)
    {
      if k.0 in services {
        services := services[k.0 := services[k.0].(earned := services[k.0].earned + reward)];
      }
      SaveHistory(k, History(reward, true));
    }

    method RewardServices(c: Address, epoch: nat, sids: seq<nat>, rewards: seq<nat>) returns (total: int)
      requires |sids| <= |rewards|
      modifies this
      ensures Abs() == RewardAll(old(Abs()), c, epoch, sids, rewards) && total == Rewards(rewards[..|sids|])
    {
      total := 0;
      for i := 0 to |sids|
        invariant Abs() == RewardAll(old(Abs()), c, epoch, sids[..i], rewards[..i]) && total == Rewards(rewards[..i])
      {
        assert sids[..i + 1][..i] == sids[..i] && rewards[..i + 1][..i] == rewards[..i];
        total := total + rewards[i];
        RewardService((sids[i], c, epoch), rewards[i]);
      }
      assert sids[..|sids|] == sids;
      RewardAllReads(old(Abs()), c, epoch, sids, rewards);
    }

    method CloseUnrewarded(c: Address, epoch: nat, sids: seq<nat>, handled: seq<nat>)
      modifies this
      ensures Abs() == CloseAll(old(Abs()), c, epoch, sids, handled)
    {
      for i := 0 to |sids|
        invariant Abs() == CloseAll(old(Abs()), c, epoch, sids[..i], handled)
      {
        assert sids[..i + 1][..i] == sids[..i];
        if sids[i] in handled {
          continue;
        }
        if sids[i] in services {
          if services[sids[i]].contract.Some? && services[sids[i]].contract.value != c {
            continue;
          }
        }
        SaveHistory((sids[i], c, epoch), History(0, true));
      }
      assert sids[..|sids|] == sids;
    }

    method MergeTracker(existing: seq<nat>, now: seq<nat>) returns (merged: seq<nat>)
      ensures merged == Merge(existing, now)
    {
      merged := existing;
      var existingSet := set sid | sid in existing;
      for i := 0 to |now|
        invariant merged == Merge(existing, now[..i]) && existingSet == Elems(merged)
      {
        assert now[..i + 1][..i] == now[..i];
        if now[i] !in existingSet {
          merged := merged + [now[i]];
          existingSet := existingSet + {now[i]};
        }
      }
      assert now[..|now|] == now;
    }

    method HandleCheckpoint(c: Address, epoch: nat, sids: seq<nat>, rewards: seq<nat>)
      modifies this
      ensures Abs() == CheckpointState(old(Abs()), c, epoch, sids, rewards)
    {
      if |rewards| < |sids| {
        return;
      }
      RewardAllKeepsActive(Abs(), c, epoch, sids, rewards);
      var total := RewardServices(c, epoch, sids, rewards);
      if (c, epoch) in active {
        var allActive := active[(c, epoch)];
        CloseAllKeepsActive(Abs(), c, epoch, allActive, sids);
        CloseUnrewarded(c, epoch, allActive, sids);
        var next := allActive;
        if (c, epoch + 1) in active {
          next := MergeTracker(active[(c, epoch + 1)], allActive);
        }
        active := active[(c, epoch + 1) := next];
      }
      totalRewards := totalRewards + total;
    }

    method HandleServiceStaked(c: Address, epoch: nat, sid: nat)
      modifies this
      ensures Abs() == StakeState(stakes, old(Abs()), c, epoch, sid)
    {
      var service := if sid in services then services[sid] else NEW_SERVICE;
      var olasForStaking := StakeOf(stakes, c);
      service := service.(staked := service.staked + olasForStaking);
      service := service.(contract := Some(c));
      services := services[sid := service];
      var serviceIds := if (c, epoch) in active then active[(c, epoch)] else [];
      if sid !in serviceIds {
        serviceIds := serviceIds + [sid];
      }
      active := active[(c, epoch) := serviceIds];
      var history := GetOrCreateHistory((sid, c, epoch));
      cumulativeStaked := cumulativeStaked + olasForStaking;
      currentStaked := currentStaked + olasForStaking;
    }

    method HandleRewardClaimed(sid: nat, reward: nat)
      modifies this
      ensures Abs() == ClaimState(old(Abs()), sid, reward)
    {
      if sid in services {
        services := services[sid := services[sid].(claimed := services[sid].claimed + reward)];
      }
    }

    method ProcessUnstake(c: Address, epoch: nat, sid: nat, reward: nat)
      modifies this
      ensures Abs() == UnstakeState(stakes, old(Abs()), c, epoch, sid, reward)
    {
      var olasForStaking := StakeOf(stakes, c);
      if sid in services {
        var service := services[sid];
        service := service.(contract := None, claimed := service.claimed + reward, staked := service.staked
            - olasForStaking);
        services := services[sid := service];
      }
      var history := GetOrCreateHistory((sid, c, epoch));
      histories := histories[(sid, c, epoch) := history.(reward := reward)];
      cumulativeUnstaked := cumulativeUnstaked + olasForStaking;
      currentStaked := currentStaked - olasForStaking;
    }
  }
}
