/** DailyServiceFunds: the daily reward buckets and their running totals. */
module PearlRewards {
  import opened Collections
  import opened PearlIds
  import opened PearlState
  import opened PearlFrames

  /** The events that reach `addDailyOlasReward` for a service. */
  predicate Rewards(e: Event, sid: nat) {
    (e.RewardClaimed? || (e.Unstaked? && e.reward > 0)) && e.sid == sid
  }

  /** Rewards of a service booked on one day. */
  function OnDay(es: Trace, sid: nat, day: nat): int {
    if es == [] then 0
    else
      var e := es[|es| - 1];
      OnDay(es[..|es| - 1], sid, day) + (if Rewards(e, sid) && DayStart(e.h.time) == day then e.reward else 0)
  }

  /** Rewards of a service booked up to and including a day. */
  function Through(es: Trace, sid: nat, day: nat): int {
    if es == [] then 0
    else
      var e := es[|es| - 1];
      Through(es[..|es| - 1], sid, day) + (if Rewards(e, sid) && DayStart(e.h.time) <= day then e.reward else 0)
  }

  /** The sum of the daily amounts of the days 0 .. n. */
  function DaysSum(es: Trace, sid: nat, n: nat): int {
    OnDay(es, sid, DAY_SECONDS * n) + (if n == 0 then 0 else DaysSum(es, sid, n - 1))
  }

  ghost predicate InOrder(es: Trace) {
    forall i, j :: 0 <= i < j < |es| ==> es[i].h.time <= es[j].h.time
  }

  lemma {:induction false} DaysSumEmpty(sid: nat, n: nat)
    ensures DaysSum([], sid, n) == 0
  {
    if n > 0 {
      DaysSumEmpty(sid, n - 1);
    }
  }

  lemma {:induction false} DaysSumStep(es: Trace, sid: nat, n: nat)
    requires es != []
    ensures var e := es[|es| - 1];
            DaysSum(es, sid, n) == DaysSum(es[..|es| - 1], sid, n)
                + (if Rewards(e, sid) && DayStart(e.h.time) <= DAY_SECONDS * n then e.reward else 0)
  {
    if n > 0 {
      DaysSumStep(es, sid, n - 1);
    }
  }

  /** Booked through a day is the prefix sum of the daily amounts. */
  lemma {:induction false} ThroughIsPrefixSum(es: Trace, sid: nat, n: nat)
    ensures Through(es, sid, DAY_SECONDS * n) == DaysSum(es, sid, n)
  {
    if es == [] {
      DaysSumEmpty(sid, n);
    } else {
      ThroughIsPrefixSum(es[..|es| - 1], sid, n);
      DaysSumStep(es, sid, n);
    }
  }

  lemma RewardStep(cfg: Config, s: State, e: Event, sid: nat)
    requires WellFormed(e) && Rewards(e, sid)
    ensures var s' := Step(cfg, s, e);
            var total := ServiceOf(s, sid).totalClaimed + e.reward;
            var k := (sid, DayStart(e.h.time));
            && s'.daily == s.daily[k := Daily((if k in s.daily then s.daily[k].claimed else 0) + e.reward, total)]
            && ServiceOf(s', sid).totalClaimed == total
            && forall x :: x != sid ==> ServiceOf(s', x).totalClaimed == ServiceOf(s, x).totalClaimed
  {
  }

  /** Any other event leaves the buckets and every service's running total alone. */
  ghost predicate SameTotals(s: State, s': State) {
    s'.daily == s.daily && forall x :: ServiceOf(s', x).totalClaimed == ServiceOf(s, x).totalClaimed
  }

  lemma SaveServiceKeepsTotals(s: State, s': State, sid: nat, svc: Service)
    requires s'.daily == s.daily && s'.services == s.services[sid := svc]
    requires svc.totalClaimed == ServiceOf(s, sid).totalClaimed
    ensures SameTotals(s, s')
  {
  }

  lemma EvictKeepsTotals(s: State, h: Header, proxy: Address, sids: seq<nat>, owners: seq<Address>,
                         multisigs: seq<Address>)
    requires Fits(|sids|)
    ensures SameTotals(s, Evict(s, h, proxy, sids, owners, multisigs))
  {
  }

  lemma MultisigKeepsTotals(s: State, sid: nat, multisig: Address)
    ensures SameTotals(s, CreateMultisig(s, sid, multisig))
  {
    MultisigFrame(s, sid, multisig);
    SaveServiceKeepsTotals(s, CreateMultisig(s, sid, multisig), sid, CreateMultisig(s, sid, multisig).services[sid]);
  }

  lemma NftKeepsTotals(s: State, sid: nat, recipient: Address, probe: Option<seq<Address>>)
    ensures SameTotals(s, MoveNft(s, sid, recipient, probe))
  {
    NftFrame(s, sid, recipient, probe);
    SaveServiceKeepsTotals(s, MoveNft(s, sid, recipient, probe), sid, MoveNft(s, sid, recipient, probe).services[sid]);
  }

  lemma StakeKeepsTotals(s: State, sid: nat, owner: Address, multisig: Address, probe: Option<seq<Address>>)
    ensures SameTotals(s, Stake(s, sid, owner, multisig, probe))
  {
    StakeFrame(s, sid, owner, multisig, probe);
    SaveServiceKeepsTotals(s, Stake(s, sid, owner, multisig, probe), sid,
                           Stake(s, sid, owner, multisig, probe).services[sid]);
  }

  lemma RegisterKeepsTotals(s: State, sid: nat, operator: Address)
    ensures SameTotals(s, RegisterInstance(s, sid, operator))
  {
    if sid in s.services {
      var svc := s.services[sid].(operators := AddOnce(s.services[sid].operators, operator));
      SaveServiceKeepsTotals(s, SaveService(s, sid, svc), sid, svc);
    }
  }

  lemma LinkKeepsTotals(s: State, e: Event)
    requires e.MultisigCreated? || e.NftMoved? || e.Staked?
    ensures SameTotals(s, StepDiscovery(s, e))
  {
    if e.MultisigCreated? {
      MultisigKeepsTotals(s, e.sid, e.multisig);
    } else if e.NftMoved? {
      NftKeepsTotals(s, e.sid, e.recipient, e.probe);
    } else {
      StakeKeepsTotals(s, e.sid, e.owner, e.multisig, e.probe);
    }
  }

  lemma TrackingKeepsServices(s: State, e: Event)
    requires e.ProxyCreated? || e.OwnerAdded? || e.OwnerRemoved?
    ensures StepDiscovery(s, e).daily == s.daily && StepDiscovery(s, e).services == s.services
  {
    if e.ProxyCreated? {
      assert StepDiscovery(s, e) == CreateProxy(s, e.proxy, e.accepted);
    } else if e.OwnerAdded? {
      assert StepDiscovery(s, e) == AddOwner(s, e.safe, e.owner);
    } else {
      assert StepDiscovery(s, e) == RemoveOwner(s, e.safe, e.owner);
    }
  }

  lemma DiscoveryKeepsTotals(s: State, e: Event)
    requires IsDiscovery(e)
    ensures SameTotals(s, StepDiscovery(s, e))
  {
    if e.MultisigCreated? || e.NftMoved? || e.Staked? {
      LinkKeepsTotals(s, e);
    } else if e.InstanceRegistered? {
      RegisterKeepsTotals(s, e.sid, e.operator);
    } else if e.Terminated? {
      SaveServiceKeepsTotals(s, SaveService(s, e.sid, ServiceOf(s, e.sid)), e.sid, ServiceOf(s, e.sid));
    } else {
      TrackingKeepsServices(s, e);
    }
  }

  lemma OtherKeepsTotals(cfg: Config, s: State, e: Event)
    requires WellFormed(e) && !e.RewardClaimed? && !(e.Unstaked? && e.reward > 0)
    ensures SameTotals(s, Step(cfg, s, e))
  {
    if IsDiscovery(e) {
      DiscoveryKeepsTotals(s, e);
    } else if e.Erc20Transfer? {
      TransferFrame(cfg, s, e.h, e.token, e.from, e.to, e.amount);
    } else if e.NativeReceived? {
      NativeFrame(cfg, s, e.h, e.safe, e.sender, e.amount);
    } else if e.Evicted? {
      EvictKeepsTotals(s, e.h, e.proxy, e.sids, e.owners, e.multisigs);
    } else if e.Unstaked? {
      SaveServiceKeepsTotals(s, Step(cfg, s, e), e.sid, ServiceOf(s, e.sid));
    }
  }

  /** All rewards of a service. */
  function AllRewards(es: Trace, sid: nat): int {
    if es == [] then 0
    else AllRewards(es[..|es| - 1], sid) + (if Rewards(es[|es| - 1], sid) then es[|es| - 1].reward else 0)
  }

  lemma {:induction false} ThroughLatest(es: Trace, sid: nat, day: nat)
    requires forall e :: e in es ==> DayStart(e.h.time) <= day
    ensures Through(es, sid, day) == AllRewards(es, sid)
  {
    if es != [] {
      ThroughLatest(es[..|es| - 1], sid, day);
    }
  }

  /** Whatever the order of the events, a service's running total is the sum of its rewards. */
  lemma {:induction false} TotalIsAllRewards(cfg: Config, es: Trace, sid: nat)
    ensures ServiceOf(Run(cfg, es), sid).totalClaimed == AllRewards(es, sid)
  {
    if es != [] {
      var init, e := es[..|es| - 1], es[|es| - 1];
      TotalIsAllRewards(cfg, init, sid);
      if e.RewardClaimed? || (e.Unstaked? && e.reward > 0) {
        RewardStep(cfg, Run(cfg, init), e, e.sid);
      } else {
        OtherKeepsTotals(cfg, Run(cfg, init), e);
      }
    }
  }

  lemma {:induction false} NoRewardOnDay(es: Trace, sid: nat, day: nat)
    requires forall i :: 0 <= i < |es| && Rewards(es[i], sid) ==> DayStart(es[i].h.time) != day
    ensures OnDay(es, sid, day) == 0
  {
    if es != [] {
      NoRewardOnDay(es[..|es| - 1], sid, day);
    }
  }

  ghost predicate RewardedOn(es: Trace, sid: nat, day: nat) {
    exists i :: 0 <= i < |es| && Rewards(es[i], sid) && DayStart(es[i].h.time) == day
  }

  lemma RewardedOnStep(es: Trace, sid: nat, day: nat)
    requires es != []
    ensures RewardedOn(es, sid, day)
      <==> RewardedOn(es[..|es| - 1], sid, day) || (Rewards(es[|es| - 1], sid) && DayStart(es[|es| - 1].h.time) == day)
  {
    var init := es[..|es| - 1];
    if RewardedOn(init, sid, day) {
      var i :| 0 <= i < |init| && Rewards(init[i], sid) && DayStart(init[i].h.time) == day;
      assert Rewards(es[i], sid);
    }
    if RewardedOn(es, sid, day) {
      var i :| 0 <= i < |es| && Rewards(es[i], sid) && DayStart(es[i].h.time) == day;
      if i < |init| {
        assert Rewards(init[i], sid);
      }
    }
  }

  /** The event that books a reward sees the sum of all rewards through its own day. */
  lemma TotalThroughToday(cfg: Config, es: Trace, sid: nat, n: nat)
    requires InOrder(es) && es != [] && DayStart(es[|es| - 1].h.time) == DAY_SECONDS * n
    ensures ServiceOf(Run(cfg, es), sid).totalClaimed == DaysSum(es, sid, n)
  {
    forall x | x in es ensures DayStart(x.h.time) <= DAY_SECONDS * n {
      var i :| 0 <= i < |es| && es[i] == x;
      assert es[i].h.time <= es[|es| - 1].h.time;
    }
    TotalIsAllRewards(cfg, es, sid);
    ThroughLatest(es, sid, DAY_SECONDS * n);
    ThroughIsPrefixSum(es, sid, n);
  }

  lemma LaterEventsAreNotEarlierDays(es: Trace, sid: nat, day: nat)
    requires InOrder(es) && es != [] && RewardedOn(es[..|es| - 1], sid, day)
    ensures DayStart(es[|es| - 1].h.time) >= day
  {
    var init := es[..|es| - 1];
    var i :| 0 <= i < |init| && Rewards(init[i], sid) && DayStart(init[i].h.time) == day;
    assert es[i].h.time <= es[|es| - 1].h.time;
  }

  /** A bucket exists exactly when its day had a reward. */
  lemma {:induction false} BucketPerRewardedDay(cfg: Config, es: Trace, sid: nat, n: nat)
    ensures (sid, DAY_SECONDS * n) in Run(cfg, es).daily <==> RewardedOn(es, sid, DAY_SECONDS * n)
  {
    if es != [] {
      var init, e := es[..|es| - 1], es[|es| - 1];
      BucketPerRewardedDay(cfg, init, sid, n);
      RewardedOnStep(es, sid, DAY_SECONDS * n);
      if e.RewardClaimed? || (e.Unstaked? && e.reward > 0) {
        RewardStep(cfg, Run(cfg, init), e, e.sid);
      } else {
        OtherKeepsTotals(cfg, Run(cfg, init), e);
      }
    }
  }

  /**
   With block times in order, a day's bucket holds that day's rewards and the prefix sum of the
   daily amounts up to that day.
   */
  lemma {:induction false} BucketsArePrefixSums(cfg: Config, es: Trace, sid: nat, n: nat)
    requires InOrder(es) && (sid, DAY_SECONDS * n) in Run(cfg, es).daily
    ensures Run(cfg, es).daily[(sid, DAY_SECONDS * n)] == Daily(OnDay(es, sid, DAY_SECONDS * n), DaysSum(es, sid, n))
  {
    var init, e := es[..|es| - 1], es[|es| - 1];
    var k := (sid, DAY_SECONDS * n);
    BucketPerRewardedDay(cfg, init, sid, n);
    if k in Run(cfg, init).daily {
      BucketsArePrefixSums(cfg, init, sid, n);
      LaterEventsAreNotEarlierDays(es, sid, DAY_SECONDS * n);
    } else {
      NoRewardOnDay(init, sid, DAY_SECONDS * n);
    }
    DaysSumStep(es, sid, n);
    if e.RewardClaimed? || (e.Unstaked? && e.reward > 0) {
      RewardStep(cfg, Run(cfg, init), e, e.sid);
      if e.sid == sid && DayStart(e.h.time) == DAY_SECONDS * n {
        TotalThroughToday(cfg, es, sid, n);
      }
    } else {
      OtherKeepsTotals(cfg, Run(cfg, init), e);
    }
  }
}
