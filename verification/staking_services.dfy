/** What the staking events of a run say of one service, one active list, one history and the totals. */
module StakingServices {
  import opened Collections
  import opened Staking

  // ----- figures read off the events ---------------------------------------

  /** The sum of a figure over the events from number `first` on. */
  function Moved(es: seq<Event>, first: nat, move: Event -> int): int
    decreases |es|
  {
    if |es| <= first then 0 else Moved(es[..|es| - 1], first, move) + move(es[|es| - 1])
  }

  function IndexedStake(stakes: Stakes, c: Address): nat {
    if c in stakes then stakes[c] else 0
  }

  /** What an event stakes for a service, an unstake being negative. */
  function StakedMove(stakes: Stakes, e: Event, sid: nat): int {
    if e.Staked? && e.sid == sid then IndexedStake(stakes, e.c)
    else if e.Unstaked? && e.sid == sid then 0 - IndexedStake(stakes, e.c)
    else 0
  }

  function ClaimedMove(e: Event, sid: nat): int {
    if (e.RewardClaimed? || e.Unstaked?) && e.sid == sid then e.reward else 0
  }

  /** The rewards at the places where a service is listed. */
  function RewardsTo(sids: seq<nat>, rewards: seq<nat>, sid: nat): int
    requires |sids| <= |rewards|
  {
    if sids == [] then 0
    else
      var n := |sids| - 1;
      RewardsTo(sids[..n], rewards[..n], sid) + (if sids[n] == sid then rewards[n] else 0)
  }

  function EarnedMove(e: Event, sid: nat): int {
    if e.Checkpoint? && |e.sids| <= |e.rewards| then RewardsTo(e.sids, e.rewards, sid) else 0
  }

  // ----- one service -------------------------------------------------------

  /** Everything but the earnings and the number of epochs. */
  ghost predicate SameStaking(svc: Service, svc': Service) {
    svc'.staked == svc.staked && svc'.claimed == svc.claimed && svc'.contract == svc.contract
  }

  lemma {:induction false} RewardAllService(s: State, c: Address, epoch: nat, sids: seq<nat>, rewards: seq<nat>,
                                            sid: nat)
    requires |sids| <= |rewards|
    ensures var s' := RewardAll(s, c, epoch, sids, rewards);
            && (sid in s'.services <==> sid in s.services)
            && (sid in s.services ==>
                  && SameStaking(s.services[sid], s'.services[sid])
                  && s'.services[sid].earned == s.services[sid].earned + RewardsTo(sids, rewards, sid))
  {
    if sids != [] {
      RewardAllService(s, c, epoch, sids[..|sids| - 1], rewards[..|sids| - 1], sid);
    }
  }

  lemma {:induction false} CloseAllService(s: State, c: Address, epoch: nat, sids: seq<nat>, handled: seq<nat>,
                                           sid: nat)
    ensures var s' := CloseAll(s, c, epoch, sids, handled);
            && (sid in s'.services <==> sid in s.services)
            && (sid in s.services ==>
                  && SameStaking(s.services[sid], s'.services[sid])
                  && s'.services[sid].earned == s.services[sid].earned)
  {
    if sids != [] {
      CloseAllService(s, c, epoch, sids[..|sids| - 1], handled, sid);
    }
  }

  lemma CheckpointService(s: State, e: Event, sid: nat)
    requires e.Checkpoint?
    ensures var s' := CheckpointState(s, e.c, e.epoch, e.sids, e.rewards);
            && (sid in s'.services <==> sid in s.services)
            && (sid in s.services ==>
                  && SameStaking(s.services[sid], s'.services[sid])
                  && s'.services[sid].earned == s.services[sid].earned + EarnedMove(e, sid))
  {
    if |e.sids| <= |e.rewards| {
      RewardAllService(s, e.c, e.epoch, e.sids, e.rewards, sid);
      var s1 := RewardAll(s, e.c, e.epoch, e.sids, e.rewards);
      if (e.c, e.epoch) in s1.active {
        CloseAllService(s1, e.c, e.epoch, s1.active[(e.c, e.epoch)], e.sids, sid);
      }
    }
  }

  /** Binds a service to a contract, or frees it. */
  predicate Binds(e: Event, sid: nat) {
    (e.Staked? || e.Unstaked?) && e.sid == sid
  }

  predicate StakesService(e: Event, sid: nat) {
    e.Staked? && e.sid == sid
  }

  lemma StepService(stakes: Stakes, s: State, e: Event, sid: nat)
    ensures var s' := Step(stakes, s, e);
            && (sid in s'.services <==> sid in s.services || StakesService(e, sid))
            && (sid in s'.services ==>
                  var svc, svc' := if sid in s.services then s.services[sid] else NEW_SERVICE, s'.services[sid];
                  && svc'.staked == svc.staked + StakedMove(stakes, e, sid)
                  && svc'.claimed == svc.claimed + ClaimedMove(e, sid)
                  && svc'.earned == svc.earned + EarnedMove(e, sid)
                  && svc'.contract == if Binds(e, sid) then (if e.Staked? then Some(e.c) else None) else svc.contract)
  {
    if e.Checkpoint? {
      CheckpointService(s, e, sid);
    }
  }

  /** A service has a row exactly when it was staked. */
  lemma {:induction false} ServiceKnownIff(stakes: Stakes, es: seq<Event>, sid: nat)
    ensures sid in Run(stakes, es).services
        <==> exists i :: 0 <= i < |es| && es[i].Staked? && es[i].sid == sid
  {
    if es != [] {
      var init, last := es[..|es| - 1], |es| - 1;
      ServiceKnownIff(stakes, init, sid);
      StepService(stakes, Run(stakes, init), es[last], sid);
      if i :| 0 <= i < |init| && init[i].Staked? && init[i].sid == sid {
        assert es[i].Staked? && es[i].sid == sid;
      }
      if i :| 0 <= i < |es| && es[i].Staked? && es[i].sid == sid && i < last {
        assert init[i].Staked? && init[i].sid == sid;
      }
    }
  }

  /** The staking contract of a service is that of its last stake, and none after an unstake. */
  lemma {:induction false} ContractOfLastBinding(stakes: Stakes, es: seq<Event>, i: nat, sid: nat)
    requires i < |es| && (es[i].Staked? || es[i].Unstaked?) && es[i].sid == sid
    requires forall j :: i < j < |es| ==> !((es[j].Staked? || es[j].Unstaked?) && es[j].sid == sid)
    ensures var services := Run(stakes, es).services;
            && (es[i].Staked? ==> sid in services && services[sid].contract == Some(es[i].c))
            && (es[i].Unstaked? && sid in services ==> services[sid].contract == None)
    decreases |es|
  {
    var init, last := es[..|es| - 1], |es| - 1;
    StepService(stakes, Run(stakes, init), es[last], sid);
    if i < last {
      assert init[i] == es[i];
      ContractOfLastBinding(stakes, init, i, sid);
    }
  }

  /**
   The figures of a service since the event that first staked it: stakes less unstakes, rewards of
   completed checkpoints, and claims together with the rewards of its unstakes.
   */
  lemma {:induction false} FiguresSinceFirstStake(stakes: Stakes, es: seq<Event>, first: nat, sid: nat)
    requires first < |es| && es[first].Staked? && es[first].sid == sid
    requires forall j :: 0 <= j < first ==> !(es[j].Staked? && es[j].sid == sid)
    ensures var services := Run(stakes, es).services;
            && sid in services
            && services[sid].staked == Moved(es, first, e => StakedMove(stakes, e, sid))
            && services[sid].earned == Moved(es, first, e => EarnedMove(e, sid))
            && services[sid].claimed == Moved(es, first, e => ClaimedMove(e, sid))
    decreases |es|
  {
    var init, last := es[..|es| - 1], |es| - 1;
    StepService(stakes, Run(stakes, init), es[last], sid);
    if first < last {
      assert init[first] == es[first];
      FiguresSinceFirstStake(stakes, init, first, sid);
    } else {
      ServiceKnownIff(stakes, init, sid);
    }
  }

  // ----- the global figures ------------------------------------------------

  function StakedIn(stakes: Stakes, e: Event): int {
    if e.Staked? then IndexedStake(stakes, e.c) else 0
  }

  function UnstakedIn(stakes: Stakes, e: Event): int {
    if e.Unstaked? then IndexedStake(stakes, e.c) else 0
  }

  function RewardedIn(e: Event): int {
    if e.Checkpoint? && |e.sids| <= |e.rewards| then Sum(e.rewards[..|e.sids|]) else 0
  }

  lemma {:induction false} RewardsIsSum(rewards: seq<nat>)
    ensures Rewards(rewards) == Sum(rewards)
  {
    if rewards != [] {
      RewardsIsSum(rewards[..|rewards| - 1]);
    }
  }

  /** The global figures are the sums of all stakes, all unstakes and all rewards of completed checkpoints. */
  lemma {:induction false} GlobalsAreSums(stakes: Stakes, es: seq<Event>)
    ensures var s := Run(stakes, es);
            && s.cumulativeStaked == Moved(es, 0, e => StakedIn(stakes, e))
            && s.cumulativeUnstaked == Moved(es, 0, e => UnstakedIn(stakes, e))
            && s.currentStaked == s.cumulativeStaked - s.cumulativeUnstaked
            && s.totalRewards == Moved(es, 0, e => RewardedIn(e))
  {
    if es != [] {
      var init, e := es[..|es| - 1], es[|es| - 1];
      var s := Run(stakes, init);
      GlobalsAreSums(stakes, init);
      match e
      case Staked(c, epoch, sid) => StakeSums(stakes, s, c, epoch, sid);
      case Checkpoint(c, epoch, sids, rewards) =>
        if |sids| <= |rewards| {
          CheckpointSums(s, c, epoch, sids, rewards);
          RewardsIsSum(rewards[..|sids|]);
        }
      case RewardClaimed(sid, reward) => ClaimSums(s, sid, reward);
      case Unstaked(c, epoch, sid, reward) => UnstakeSums(stakes, s, c, epoch, sid, reward);
    }
  }

  // ----- one active list ---------------------------------------------------

  /** Event `i` stakes the service for an epoch from which completed checkpoints carry it to epoch `n`. */
  ghost predicate CarriedFrom(es: seq<Event>, i: nat, c: Address, n: nat, sid: nat)
    requires i < |es|
  {
    && es[i].Staked? && es[i].c == c && es[i].sid == sid
    && es[i].epoch <= n <= es[i].epoch + Carried(es[i + 1..], c, es[i].epoch)
  }

  ghost predicate CarriedTo(es: seq<Event>, c: Address, n: nat, sid: nat) {
    exists i :: 0 <= i < |es| && CarriedFrom(es, i, c, n, sid)
  }

  lemma {:induction false} CarriedAppend(es: seq<Event>, e: Event, c: Address, m: nat)
    ensures Carried(es + [e], c, m) == Carried(es, c, m)
        + (if Completes(e) && e.c == c && e.epoch == m + Carried(es, c, m) then 1 else 0)
    decreases |es|
  {
    if es == [] {
      assert [e][1..] == [];
    } else {
      assert (es + [e])[1..] == es[1..] + [e];
      CarriedAppend(es[1..], e, c, m);
      CarriedAppend(es[1..], e, c, m + 1);
    }
  }

  lemma CarriedStep(es: seq<Event>, i: nat, c: Address, n: nat, sid: nat)
    requires i < |es| - 1
    ensures var init, e := es[..|es| - 1], es[|es| - 1];
            CarriedFrom(es, i, c, n, sid) <==>
              CarriedFrom(init, i, c, n, sid)
              || (Completes(e) && e.c == c && e.epoch + 1 == n && CarriedFrom(init, i, c, n - 1, sid))
  {
    var init, e := es[..|es| - 1], es[|es| - 1];
    assert es[i + 1..] == init[i + 1..] + [e];
    if es[i].Staked? {
      CarriedAppend(init[i + 1..], e, c, es[i].epoch);
    }
  }

  lemma CarriedToStep(es: seq<Event>, c: Address, n: nat, sid: nat)
    requires es != []
    ensures var init, e := es[..|es| - 1], es[|es| - 1];
            CarriedTo(es, c, n, sid) <==>
              || CarriedTo(init, c, n, sid)
              || (Completes(e) && e.c == c && e.epoch + 1 == n && CarriedTo(init, c, n - 1, sid))
              || e == Staked(c, n, sid)
  {
    var init, last := es[..|es| - 1], |es| - 1;
    forall i | 0 <= i < last ensures CarriedFrom(es, i, c, n, sid) <==>
              CarriedFrom(init, i, c, n, sid)
              || (Completes(es[last]) && es[last].c == c && es[last].epoch + 1 == n
                  && CarriedFrom(init, i, c, n - 1, sid)) {
      CarriedStep(es, i, c, n, sid);
    }
    assert es[last + 1..] == [];
    assert CarriedFrom(es, last, c, n, sid) <==> es[last] == Staked(c, n, sid);
    if i :| 0 <= i < |init| && CarriedFrom(init, i, c, n, sid) {
      assert CarriedFrom(es, i, c, n, sid);
    }
    if Completes(es[last]) && es[last].c == c && es[last].epoch + 1 == n && CarriedTo(init, c, n - 1, sid) {
      var i :| 0 <= i < |init| && CarriedFrom(init, i, c, n - 1, sid);
      assert CarriedFrom(es, i, c, n, sid);
    }
  }

  lemma ListStep(stakes: Stakes, s: State, e: Event, c: Address, n: nat, sid: nat)
    ensures sid in ActiveAt(Step(stakes, s, e), c, n) <==>
              || sid in ActiveAt(s, c, n)
              || (Completes(e) && e.c == c && e.epoch + 1 == n && sid in ActiveAt(s, c, n - 1))
              || e == Staked(c, n, sid)
  {
    match e
    case Staked(d, m, x) =>
      AddOnceAdds(ActiveAt(s, d, m), x);
      assert StakeState(stakes, s, d, m, x).active == s.active[(d, m) := AddOnce(ActiveAt(s, d, m), x)];
      assert sid in AddOnce(ActiveAt(s, d, m), x) <==> sid in Elems(AddOnce(ActiveAt(s, d, m), x));
    case Checkpoint(d, m, sids, rewards) =>
      if |sids| <= |rewards| {
        if (d, m) in s.active {
          CheckpointUnitesLists(s, d, m, sids, rewards);
          var s' := CheckpointState(s, d, m, sids, rewards);
          assert sid in ActiveAt(s', d, m + 1) <==> sid in Elems(ActiveAt(s', d, m + 1));
        } else {
          CheckpointActive(s, d, m, sids, rewards);
        }
      }
    case RewardClaimed(x, reward) => assert ClaimState(s, x, reward).active == s.active;
    case Unstaked(d, m, x, reward) => assert UnstakeState(stakes, s, d, m, x, reward).active == s.active;
  }

  /**
   An epoch's list names exactly the services staked for it, or for an earlier epoch from which
   completed checkpoints, epoch after epoch, carried them to it.
   */
  lemma {:induction false} ListedIff(stakes: Stakes, es: seq<Event>, c: Address, n: nat, sid: nat)
    ensures sid in ActiveAt(Run(stakes, es), c, n) <==>
            exists i :: 0 <= i < |es| && CarriedFrom(es, i, c, n, sid)
  {
    assert CarriedTo(es, c, n, sid) <==> exists i :: 0 <= i < |es| && CarriedFrom(es, i, c, n, sid);
    if es != [] {
      var init, e := es[..|es| - 1], es[|es| - 1];
      CarriedToStep(es, c, n, sid);
      ListStep(stakes, Run(stakes, init), e, c, n, sid);
      ListedIff(stakes, init, c, n, sid);
      assert CarriedTo(init, c, n, sid) <==> exists i :: 0 <= i < |init| && CarriedFrom(init, i, c, n, sid);
      if n > 0 {
        var m := n - 1;
        ListedIff(stakes, init, c, m, sid);
        assert CarriedTo(init, c, m, sid) <==> exists i :: 0 <= i < |init| && CarriedFrom(init, i, c, m, sid);
      }
    }
  }

  // ----- one history -------------------------------------------------------

  /** A completed checkpoint of the history's contract and epoch. */
  predicate Checks(e: Event, k: Key) {
    e.Checkpoint? && |e.sids| <= |e.rewards| && (e.c, e.epoch) == (k.1, k.2)
  }

  /** The service is on the list and not staked with another contract. */
  predicate Remains(s: State, k: Key) {
    && k.0 in ActiveAt(s, k.1, k.2)
    && !(k.0 in s.services && s.services[k.0].contract.Some? && s.services[k.0].contract.value != k.1)
  }

  /** The events that write the reward of a history. */
  predicate Writes(s: State, e: Event, k: Key) {
    || (e.Unstaked? && (e.sid, e.c, e.epoch) == k)
    || (Checks(e, k) && (k.0 in e.sids || Remains(s, k)))
  }

  /** Position `j` is the last place of service `sid`. */
  predicate LastPlace(sids: seq<nat>, j: int, sid: nat) {
    0 <= j < |sids| && sids[j] == sid && forall i :: j < i < |sids| ==> sids[i] != sid
  }

  /** What a writing event writes; `before` is the history it finds. */
  ghost predicate Written(e: Event, k: Key, before: Option<History>, h: History) {
    && (e.Unstaked? ==> h == History(e.reward, before.Some? && before.value.closed))
    && (e.Checkpoint? && |e.sids| <= |e.rewards| ==>
          && h.closed
          && (k.0 !in e.sids ==> h.reward == 0)
          && forall j :: LastPlace(e.sids, j, k.0) ==> h.reward == e.rewards[j])
  }

  /** The event stakes the service for the history's contract and epoch. */
  predicate Opens(e: Event, k: Key) {
    e.Staked? && (e.sid, e.c, e.epoch) == k
  }

  function Found(s: State, k: Key): Option<History> {
    if k in s.histories then Some(s.histories[k]) else None
  }

  lemma {:induction false} LastPlaceExists(sids: seq<nat>, sid: nat) returns (j: nat)
    requires sid in sids
    ensures LastPlace(sids, j, sid)
  {
    j := |sids| - 1;
    if sids[j] != sid {
      j := LastPlaceExists(sids[..j], sid);
    }
  }

  lemma CheckpointWrites(s: State, e: Event, k: Key)
    requires Checks(e, k) && Writes(s, e, k)
    ensures var s' := CheckpointState(s, e.c, e.epoch, e.sids, e.rewards);
            k in s'.histories && Written(e, k, Found(s, k), s'.histories[k])
  {
    var s1 := RewardAll(s, e.c, e.epoch, e.sids, e.rewards);
    RewardAllKeepsActive(s, e.c, e.epoch, e.sids, e.rewards);
    RewardAllKeepsContracts(s, e.c, e.epoch, e.sids, e.rewards);
    assert Migrated(s1, k.0, k.1) == Migrated(s, k.0, k.1);
    if k.0 in e.sids {
      var j := LastPlaceExists(e.sids, k.0);
      RewardAllRecords(s, e.c, e.epoch, e.sids, e.rewards, j);
      assert forall i :: LastPlace(e.sids, i, k.0) ==> i == j;
      assert s1.histories[k] == History(e.rewards[j], true);
    }
    if (e.c, e.epoch) in s1.active {
      CloseAllRecords(s1, e.c, e.epoch, s1.active[(e.c, e.epoch)], e.sids, k);
    }
  }

  lemma StepHistory(stakes: Stakes, s: State, e: Event, k: Key)
    ensures var h, h' := Found(s, k), Found(Step(stakes, s, e), k);
            && (Writes(s, e, k) ==> h'.Some? && Written(e, k, h, h'.value))
            && (!Writes(s, e, k) ==> h' == if h.None? && Opens(e, k) then Some(History(0, false)) else h)
  {
    if Checks(e, k) {
      if Writes(s, e, k) {
        CheckpointWrites(s, e, k);
      } else {
        CheckpointLeaves(s, e.c, e.epoch, e.sids, e.rewards, k);
      }
    } else if e.Checkpoint? && |e.sids| <= |e.rewards| {
      CheckpointLeaves(s, e.c, e.epoch, e.sids, e.rewards, k);
    }
  }

  /** Event `i` of a run writes the history. */
  ghost predicate WrittenAt(stakes: Stakes, es: seq<Event>, i: nat, k: Key)
    requires i < |es|
  {
    Writes(Run(stakes, es[..i]), es[i], k)
  }

  ghost predicate WrittenSince(stakes: Stakes, es: seq<Event>, first: nat, k: Key) {
    exists j: nat :: first <= j < |es| && WrittenAt(stakes, es, j, k)
  }

  lemma WrittenAtPrefix(stakes: Stakes, es: seq<Event>, j: nat, k: Key)
    requires j < |es| - 1
    ensures WrittenAt(stakes, es, j, k) == WrittenAt(stakes, es[..|es| - 1], j, k)
  {
    assert es[..|es| - 1][..j] == es[..j];
  }

  lemma WrittenSincePrefix(stakes: Stakes, es: seq<Event>, first: nat, k: Key)
    requires first < |es| && !WrittenSince(stakes, es, first, k)
    ensures !WrittenSince(stakes, es[..|es| - 1], first, k) && !WrittenAt(stakes, es, |es| - 1, k)
  {
    var init := es[..|es| - 1];
    if WrittenSince(stakes, init, first, k) {
      var j: nat :| first <= j < |init| && WrittenAt(stakes, init, j, k);
      WrittenAtPrefix(stakes, es, j, k);
    }
  }

  lemma LastWrite(stakes: Stakes, es: seq<Event>, k: Key)
    requires es != []
    ensures var s, h := Run(stakes, es[..|es| - 1]), Found(Run(stakes, es), k);
            if WrittenAt(stakes, es, |es| - 1, k) then h.Some? && Written(es[|es| - 1], k, Found(s, k), h.value)
            else h == if Found(s, k).None? && Opens(es[|es| - 1], k) then Some(History(0, false)) else Found(s, k)
  {
    StepHistory(stakes, Run(stakes, es[..|es| - 1]), es[|es| - 1], k);
  }

  /** A history holds what the last event that wrote it wrote. */
  lemma {:induction false} HistoryOfLastWrite(stakes: Stakes, es: seq<Event>, i: nat, k: Key)
    requires i < |es| && WrittenAt(stakes, es, i, k) && !WrittenSince(stakes, es, i + 1, k)
    ensures var h := Found(Run(stakes, es), k);
            h.Some? && Written(es[i], k, Found(Run(stakes, es[..i]), k), h.value)
    decreases |es|
  {
    LastWrite(stakes, es, k);
    if i < |es| - 1 {
      WrittenAtPrefix(stakes, es, i, k);
      WrittenSincePrefix(stakes, es, i + 1, k);
      assert es[..|es| - 1][..i] == es[..i];
      HistoryOfLastWrite(stakes, es[..|es| - 1], i, k);
    }
  }

  ghost predicate Opened(es: seq<Event>, k: Key) {
    exists i :: 0 <= i < |es| && Opens(es[i], k)
  }

  lemma OpenedStep(es: seq<Event>, k: Key)
    requires es != []
    ensures Opened(es, k) <==> Opened(es[..|es| - 1], k) || Opens(es[|es| - 1], k)
  {
    var init := es[..|es| - 1];
    if Opened(init, k) {
      var i :| 0 <= i < |init| && Opens(init[i], k);
      assert Opens(es[i], k);
    }
    if Opened(es, k) && !Opens(es[|es| - 1], k) {
      var i :| 0 <= i < |es| && Opens(es[i], k);
      assert Opens(init[i], k);
    }
  }

  /** ... and one that no event wrote exists, open and with no reward, exactly when the service was staked for it. */
  lemma {:induction false} HistoryNeverWritten(stakes: Stakes, es: seq<Event>, k: Key)
    requires !WrittenSince(stakes, es, 0, k)
    ensures Found(Run(stakes, es), k) == if Opened(es, k) then Some(History(0, false)) else None
  {
    if es != [] {
      WrittenSincePrefix(stakes, es, 0, k);
      HistoryNeverWritten(stakes, es[..|es| - 1], k);
      LastWrite(stakes, es, k);
      OpenedStep(es, k);
    }
  }
}
