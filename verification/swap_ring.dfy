/**
 The four-bucket time ring of recent swaps of one agent, and the fate of every swap
 added to it.
 */
module SwapRing {
  import opened Collections
  import opened Text

  type Id = seq<Byte>

  datatype Swap = Swap(timestamp: nat, id: Id, slippage: Decimal, expiresAt: nat)

  const ASSOCIATION_WINDOW := 1200
  const BUCKET_SECONDS := 300

  datatype Ring = Ring(bucket0: seq<Swap>, bucket1: seq<Swap>, bucket2: seq<Swap>, bucket3: seq<Swap>, current: nat) {
    function At(b: nat): seq<Swap>
      requires b < 4
    {
      if b == 0 then bucket0 else if b == 1 then bucket1 else if b == 2 then bucket2 else bucket3
    }
  }

  /** The number of the 300-second bucket a time lies in. */
  function BucketIndex(timestamp: nat): nat {
    timestamp / BUCKET_SECONDS
  }

  lemma BucketBounds(timestamp: nat, k: nat)
    ensures BucketIndex(timestamp) == k <==> 300 * k <= timestamp < 300 * (k + 1)
  {
    assert 300 * BucketIndex(timestamp) <= timestamp < 300 * (BucketIndex(timestamp) + 1);
  }

  function FreshRing(timestamp: nat): Ring {
    Ring([], [], [], [], BucketIndex(timestamp))
  }

  /** Rotation moves one bucket, however long the gap. */
  function Rotate(r: Ring, timestamp: nat): Ring {
    if BucketIndex(timestamp) > r.current then Ring([], r.bucket0, r.bucket1, r.bucket2, BucketIndex(timestamp)) else r
  }

  function Add(r: Ring, s: Swap): Ring {
    var r' := Rotate(r, s.timestamp);
    r'.(bucket0 := r'.bucket0 + [s])
  }

  /** The two tests `associateSwapsWithPosition` makes on an entry. */
  predicate InWindow(s: Swap, now: nat) {
    now - s.timestamp <= ASSOCIATION_WINDOW && now <= s.expiresAt
  }

  function Taken(b: seq<Swap>, now: nat): seq<Swap> {
    if b == [] then []
    else Taken(b[..|b| - 1], now) + (if InWindow(b[|b| - 1], now) then [b[|b| - 1]] else [])
  }

  function Left(b: seq<Swap>, now: nat): seq<Swap> {
    if b == [] then []
    else Left(b[..|b| - 1], now) + (if InWindow(b[|b| - 1], now) then [] else [b[|b| - 1]])
  }

  function Slippage(b: seq<Swap>): real {
    if b == [] then 0.0 else Slippage(b[..|b| - 1]) + Value(b[|b| - 1].slippage)
  }

  function Drain(r: Ring, now: nat): Ring {
    Ring(Left(r.bucket0, now), Left(r.bucket1, now), Left(r.bucket2, now), Left(r.bucket3, now), r.current)
  }

  /** The slippage an association collects, before it is clamped at zero. */
  function Collected(r: Ring, now: nat): real {
    Slippage(Taken(r.bucket0, now)) + Slippage(Taken(r.bucket1, now)) + Slippage(Taken(r.bucket2, now))
        + Slippage(Taken(r.bucket3, now))
  }

  function Ids(b: seq<Swap>): set<Id> {
    if b == [] then {} else Ids(b[..|b| - 1]) + {b[|b| - 1].id}
  }

  lemma IdsAppend(b: seq<Swap>, s: Swap)
    ensures Ids(b + [s]) == Ids(b) + {s.id}
  {
    assert (b + [s])[..|b|] == b;
  }

  /** The swaps an association takes from a ring. */
  function TakenIds(r: Ring, now: nat): set<Id> {
    Ids(Taken(r.bucket0, now)) + Ids(Taken(r.bucket1, now)) + Ids(Taken(r.bucket2, now)) + Ids(Taken(r.bucket3, now))
  }

  function Clamp(x: real): real {
    if x < 0.0 then 0.0 else x
  }

  // ----- runs --------------------------------------------------------------

  datatype Event =
    | SwapMade(timestamp: nat, id: Id, slippage: Decimal)
    | PositionOpened(now: nat)

  /** `createSwapTransaction`: every swap expires one association window after it was made. */
  function SwapOf(e: Event): Swap
    requires e.SwapMade?
  {
    Swap(e.timestamp, e.id, e.slippage, e.timestamp + ASSOCIATION_WINDOW)
  }

  /** The ring after a run; None until the first swap creates it. */
  function Run(es: seq<Event>): Option<Ring> {
    if es == [] then None
    else
      var before, e := Run(es[..|es| - 1]), es[|es| - 1];
      match e
      case SwapMade(timestamp, _, _) =>
        Some(Add(if before.Some? then before.value else FreshRing(timestamp), SwapOf(e)))
      case PositionOpened(now) => if before.Some? then Some(Drain(before.value, now)) else None
  }

  /** What a position opened at the end of a run is charged. */
  function Charge(es: seq<Event>, now: nat): real {
    if Run(es).Some? then Clamp(Collected(Run(es).value, now)) else 0.0
  }

  // ----- the fate of one swap ----------------------------------------------

  datatype Fate = Buffered(bucket: nat) | Charged(at: nat) | Discarded

  /** The greatest bucket index any swap of the run had. */
  function MaxIndex(es: seq<Event>): int {
    if es == [] then -1
    else
      var e := es[|es| - 1];
      var m := MaxIndex(es[..|es| - 1]);
      if e.SwapMade? && BucketIndex(e.timestamp) > m then BucketIndex(e.timestamp) else m
  }

  /** A later swap opens a new bucket: its index exceeds every earlier one. */
  predicate Advances(es: seq<Event>, j: nat)
    requires j < |es|
  {
    es[j].SwapMade? && BucketIndex(es[j].timestamp) > MaxIndex(es[..j])
  }

  /** What has become of the swap made by event `i`, told from the events alone. */
  function FateOf(es: seq<Event>, i: nat): Fate
    requires i < |es| && es[i].SwapMade?
    decreases |es|
  {
    var last := |es| - 1;
    if i == last then Buffered(0)
    else
      var f := FateOf(es[..last], i);
      if !f.Buffered? then f
      else if Advances(es, last) then (if f.bucket == 3 then Discarded else Buffered(f.bucket + 1))
      else if es[last].PositionOpened? && es[last].now - es[i].timestamp <= ASSOCIATION_WINDOW then Charged(last)
      else f
  }

  /** The swaps made by the first `k` events whose fate is bucket `b`, in the order they were made. */
  function Held(es: seq<Event>, k: nat, b: nat): seq<Swap>
    requires k <= |es|
  {
    if k == 0 then []
    else
      var i := k - 1;
      Held(es, i, b) + (if es[i].SwapMade? && FateOf(es, i) == Buffered(b) then [SwapOf(es[i])] else [])
  }

  lemma WindowTestsAgree(e: Event, now: nat)
    requires e.SwapMade?
    ensures InWindow(SwapOf(e), now) <==> now - e.timestamp <= 1200
  {
  }

  lemma {:induction false} CurrentIsMaxIndex(es: seq<Event>)
    ensures Run(es).Some? <==> MaxIndex(es) >= 0
    ensures Run(es).Some? ==> Run(es).value.current == MaxIndex(es)
  {
    if es != [] {
      CurrentIsMaxIndex(es[..|es| - 1]);
    }
  }

  lemma {:induction false} HeldKept(es: seq<Event>, k: nat, b: nat)
    requires es != [] && k < |es|
    requires !Advances(es, |es| - 1) && !es[|es| - 1].PositionOpened?
    ensures Held(es, k, b) == Held(es[..|es| - 1], k, b)
  {
    if k > 0 {
      HeldKept(es, k - 1, b);
    }
  }

  lemma {:induction false} HeldShifted(es: seq<Event>, k: nat, b: nat)
    requires es != [] && k < |es| && b < 4 && Advances(es, |es| - 1)
    ensures Held(es, k, b) == if b == 0 then [] else Held(es[..|es| - 1], k, b - 1)
  {
    if k > 0 {
      HeldShifted(es, k - 1, b);
      if es[k - 1].SwapMade? {
        FateBounded(es[..|es| - 1], k - 1);
      }
    }
  }

  lemma {:induction false} FateBounded(es: seq<Event>, i: nat)
    requires i < |es| && es[i].SwapMade?
    ensures FateOf(es, i).Buffered? ==> FateOf(es, i).bucket < 4
    ensures FateOf(es, i).Charged? ==> i < FateOf(es, i).at < |es| && es[FateOf(es, i).at].PositionOpened?
                                       && es[FateOf(es, i).at].now - es[i].timestamp <= 1200
    decreases |es|
  {
    if i < |es| - 1 {
      FateBounded(es[..|es| - 1], i);
    }
  }

  lemma LeftAppend(b: seq<Swap>, s: Swap, now: nat)
    ensures Left(b + [s], now) == Left(b, now) + (if InWindow(s, now) then [] else [s])
    ensures Taken(b + [s], now) == Taken(b, now) + (if InWindow(s, now) then [s] else [])
  {
    assert (b + [s])[..|b|] == b;
  }

  lemma FateAtPosition(es: seq<Event>, i: nat)
    requires i < |es| - 1 && es[i].SwapMade? && es[|es| - 1].PositionOpened?
    ensures var f := FateOf(es[..|es| - 1], i);
            FateOf(es, i) == if f.Buffered?
                && es[|es| - 1].now - es[i].timestamp <= ASSOCIATION_WINDOW then Charged(|es| - 1) else f
  {
  }

  lemma {:induction false} HeldDrained(es: seq<Event>, k: nat, b: nat)
    requires es != [] && k < |es| && es[|es| - 1].PositionOpened?
    ensures Held(es, k, b) == Left(Held(es[..|es| - 1], k, b), es[|es| - 1].now)
  {
    if k > 0 {
      var init, e, now := es[..|es| - 1], es[k - 1], es[|es| - 1].now;
      var before, after := Held(init, k - 1, b), Held(es, k - 1, b);
      HeldDrained(es, k - 1, b);
      assert init[k - 1] == e;
      if e.SwapMade? && FateOf(init, k - 1) == Buffered(b) {
        FateAtPosition(es, k - 1);
        WindowTestsAgree(e, now);
        LeftAppend(before, SwapOf(e), now);
        assert Held(init, k, b) == before + [SwapOf(e)];
        assert Held(es, k, b) == if InWindow(SwapOf(e), now) then after else after + [SwapOf(e)];
      } else {
        assert Held(init, k, b) == before;
        assert Held(es, k, b) == after by {
          if e.SwapMade? {
            FateAtPosition(es, k - 1);
          }
        }
      }
    }
  }

  lemma {:induction false} SwapRaisesMaxIndex(es: seq<Event>, i: nat)
    requires i < |es| && es[i].SwapMade?
    ensures MaxIndex(es) >= BucketIndex(es[i].timestamp)
    decreases |es|
  {
    if i < |es| - 1 {
      SwapRaisesMaxIndex(es[..|es| - 1], i);
    }
  }

  /** What the ring must hold in bucket `b`. */
  ghost predicate Holds(r: Option<Ring>, es: seq<Event>, b: nat)
    requires b < 4
  {
    Held(es, |es|, b) == if r.Some? then r.value.At(b) else []
  }

  lemma HeldLast(es: seq<Event>, b: nat)
    requires es != []
    ensures Held(es, |es|, b) == Held(es, |es| - 1, b)
        + (if es[|es| - 1].SwapMade? && b == 0 then [SwapOf(es[|es| - 1])] else [])
  {
  }

  lemma DrainAt(r: Ring, now: nat, b: nat)
    requires b < 4
    ensures Drain(r, now).At(b) == Left(r.At(b), now)
  {
  }

  lemma AddAt(r: Ring, s: Swap, b: nat)
    requires b < 4
    ensures Add(r, s).At(b)
         == (if BucketIndex(s.timestamp) > r.current then (if b == 0 then [] else r.At(b - 1)) else r.At(b))
          + (if b == 0 then [s] else [])
  {
  }

  lemma PositionHolds(es: seq<Event>, b: nat)
    requires b < 4 && es != [] && es[|es| - 1].PositionOpened?
    requires Holds(Run(es[..|es| - 1]), es[..|es| - 1], b)
    ensures Holds(Run(es), es, b)
  {
    HeldDrained(es, |es| - 1, b);
    HeldLast(es, b);
    var before := Run(es[..|es| - 1]);
    if before.Some? {
      DrainAt(before.value, es[|es| - 1].now, b);
    }
  }

  lemma RunAdds(es: seq<Event>)
    requires es != [] && es[|es| - 1].SwapMade?
    ensures var before, s := Run(es[..|es| - 1]), SwapOf(es[|es| - 1]);
            Run(es) == Some(Add(if before.Some? then before.value else FreshRing(s.timestamp), s))
  {
  }

  lemma AdvanceHolds(es: seq<Event>, b: nat)
    requires b < 4 && es != [] && Advances(es, |es| - 1)
    requires b > 0 ==> Holds(Run(es[..|es| - 1]), es[..|es| - 1], b - 1)
    ensures Holds(Run(es), es, b)
  {
    var before, s := Run(es[..|es| - 1]), SwapOf(es[|es| - 1]);
    var r := if before.Some? then before.value else FreshRing(s.timestamp);
    CurrentIsMaxIndex(es[..|es| - 1]);
    HeldShifted(es, |es| - 1, b);
    HeldLast(es, b);
    RunAdds(es);
    AddAt(r, s, b);
  }

  lemma AddHolds(es: seq<Event>, b: nat)
    requires b < 4 && es != [] && es[|es| - 1].SwapMade? && !Advances(es, |es| - 1)
    requires Holds(Run(es[..|es| - 1]), es[..|es| - 1], b)
    ensures Holds(Run(es), es, b)
  {
    var before, s := Run(es[..|es| - 1]), SwapOf(es[|es| - 1]);
    CurrentIsMaxIndex(es[..|es| - 1]);
    HeldKept(es, |es| - 1, b);
    HeldLast(es, b);
    AddAt(before.value, s, b);
    assert Run(es) == Some(Add(before.value, s));
  }

  /**
   The ring holds exactly the swaps the fates say, bucket by bucket and in order: at all times each
   added swap is in one bucket, or charged, or discarded.
   */
  lemma {:induction false} RingHoldsFates(es: seq<Event>, b: nat)
    requires b < 4
    ensures Held(es, |es|, b) == if Run(es).Some? then Run(es).value.At(b) else []
  {
    if es != [] {
      RingHoldsFates(es[..|es| - 1], b);
      if es[|es| - 1].PositionOpened? {
        PositionHolds(es, b);
      } else if Advances(es, |es| - 1) {
        if b > 0 {
          RingHoldsFates(es[..|es| - 1], b - 1);
        }
        AdvanceHolds(es, b);
      } else {
        AddHolds(es, b);
      }
    }
  }

  // ----- retention ---------------------------------------------------------

  /** A buffered swap's bucket index lies at least `bucket` below the current one. */
  lemma {:induction false} BufferedIndexBound(es: seq<Event>, i: nat)
    requires i < |es| && es[i].SwapMade? && FateOf(es, i).Buffered?
    ensures BucketIndex(es[i].timestamp) <= MaxIndex(es) - FateOf(es, i).bucket
    decreases |es|
  {
    if i < |es| - 1 {
      BufferedIndexBound(es[..|es| - 1], i);
    } else {
      SwapRaisesMaxIndex(es, i);
    }
  }

  /** Rotation discards only swaps more than 900 seconds older than the swap that causes it. */
  lemma DiscardedIsOld(es: seq<Event>, i: nat)
    requires i < |es| - 1 && es[i].SwapMade?
    requires FateOf(es[..|es| - 1], i).Buffered? && FateOf(es, i) == Discarded
    ensures es[|es| - 1].SwapMade? && es[|es| - 1].timestamp - es[i].timestamp > 900
  {
    BufferedIndexBound(es[..|es| - 1], i);
    FateBounded(es[..|es| - 1], i);
  }

  // ----- what is charged ---------------------------------------------------

  /** The slippage of the swaps among the first `k` events charged by the position opened at event `at`. */
  function ChargedBy(es: seq<Event>, k: nat, at: nat): real
    requires k <= |es|
  {
    if k == 0 then 0.0
    else
      var i := k - 1;
      ChargedBy(es, i, at) + ChargedShare(es, i, at)
  }

  lemma SlippageAppend(b: seq<Swap>, s: Swap)
    ensures Slippage(b + [s]) == Slippage(b) + Value(s.slippage)
  {
    assert (b + [s])[..|b|] == b;
  }

  /** What the swap of event `k`, if it is in bucket `b`, gives an association at `now`. */
  function Share(es: seq<Event>, k: nat, b: nat, now: nat): real
    requires k < |es|
  {
    if es[k].SwapMade? && FateOf(es, k) == Buffered(b) && now - es[k].timestamp <= ASSOCIATION_WINDOW
    then Value(es[k].slippage) else 0.0
  }

  function Shares(es: seq<Event>, k: nat, b: nat, now: nat): real
    requires k <= |es|
  {
    if k == 0 then 0.0 else Shares(es, k - 1, b, now) + Share(es, k - 1, b, now)
  }

  function AllShares(es: seq<Event>, k: nat, now: nat): real
    requires k <= |es|
  {
    Shares(es, k, 0, now) + Shares(es, k, 1, now) + Shares(es, k, 2, now) + Shares(es, k, 3, now)
  }

  function ChargedShare(es: seq<Event>, k: nat, at: nat): real
    requires k < |es|
  {
    if es[k].SwapMade? && FateOf(es, k) == Charged(at) then Value(es[k].slippage) else 0.0
  }

  /** A bucket gives up the shares of its swaps. */
  lemma {:induction false} BucketGives(es: seq<Event>, k: nat, b: nat, now: nat)
    requires k <= |es|
    ensures Slippage(Taken(Held(es, k, b), now)) == Shares(es, k, b, now)
  {
    if k > 0 {
      var i := k - 1;
      BucketGives(es, i, b, now);
      if es[i].SwapMade? && FateOf(es, i) == Buffered(b) {
        WindowTestsAgree(es[i], now);
        LeftAppend(Held(es, i, b), SwapOf(es[i]), now);
        if InWindow(SwapOf(es[i]), now) {
          SlippageAppend(Taken(Held(es, i, b), now), SwapOf(es[i]));
        } else {
          assert Taken(Held(es, i, b), now) + [] == Taken(Held(es, i, b), now);
        }
      } else {
        assert Held(es, k, b) == Held(es, i, b);
      }
    }
  }

  lemma ShareIsCharged(es: seq<Event>, k: nat, now: nat)
    requires k < |es| - 1 && es[|es| - 1] == PositionOpened(now)
    ensures var init := es[..|es| - 1];
            ChargedShare(es, k, |es| - 1)
                == Share(init, k, 0, now) + Share(init, k, 1, now) + Share(init, k, 2, now) + Share(init, k, 3, now)
  {
    var init := es[..|es| - 1];
    assert init[k] == es[k];
    if es[k].SwapMade? {
      FateBounded(init, k);
    }
  }

  lemma {:induction false} SharesAreCharged(es: seq<Event>, k: nat, now: nat)
    requires k < |es| && es[|es| - 1] == PositionOpened(now)
    ensures ChargedBy(es, k, |es| - 1) == AllShares(es[..|es| - 1], k, now)
  {
    if k > 0 {
      SharesAreCharged(es, k - 1, now);
      ShareIsCharged(es, k - 1, now);
    }
  }

  lemma RingBuckets(es: seq<Event>)
    ensures match Run(es)
            case Some(r) => r.bucket0 == Held(es, |es|, 0) && r.bucket1 == Held(es, |es|, 1)
                         && r.bucket2 == Held(es, |es|, 2) && r.bucket3 == Held(es, |es|, 3)
            case None => Held(es, |es|, 0) == Held(es, |es|, 1) == Held(es, |es|, 2) == Held(es, |es|, 3) == []
  {
    RingHoldsFates(es, 0);
    RingHoldsFates(es, 1);
    RingHoldsFates(es, 2);
    RingHoldsFates(es, 3);
  }

  lemma BucketsGive(es: seq<Event>, now: nat)
    ensures Charge(es, now) == Clamp(AllShares(es, |es|, now))
  {
    RingBuckets(es);
    BucketGives(es, |es|, 0, now);
    BucketGives(es, |es|, 1, now);
    BucketGives(es, |es|, 2, now);
    BucketGives(es, |es|, 3, now);
  }

  /**
   A position is charged the sum of exactly the swaps whose fate is to be charged by it, and nothing
   when that sum is a gain.
   */
  lemma ChargeIsSumOfFates(es: seq<Event>)
    requires es != [] && es[|es| - 1].PositionOpened?
    ensures var charge, sum := Charge(es[..|es| - 1], es[|es| - 1].now), ChargedBy(es, |es| - 1, |es| - 1);
            charge >= 0.0 && (sum >= 0.0 ==> charge == sum) && (sum < 0.0 ==> charge == 0.0)
  {
    SharesAreCharged(es, |es| - 1, es[|es| - 1].now);
    BucketsGive(es[..|es| - 1], es[|es| - 1].now);
  }

  /** Once charged or discarded, always so: no swap reaches two positions. */
  lemma {:induction false} FateIsFinal(es: seq<Event>, i: nat, k: nat)
    requires i < k <= |es| && es[i].SwapMade? && !FateOf(es[..k], i).Buffered?
    ensures FateOf(es, i) == FateOf(es[..k], i)
    decreases |es|
  {
    if k == |es| {
      assert es[..k] == es;
    } else {
      assert es[..|es| - 1][..k] == es[..k];
      FateIsFinal(es[..|es| - 1], i, k);
    }
  }

  /** The position that charges a swap is unique. */
  lemma NoSwapChargedTwice(es: seq<Event>, i: nat, j: nat, k: nat)
    requires i < j < |es| && i < k < |es| && es[i].SwapMade?
    requires FateOf(es[..j + 1], i) == Charged(j) && FateOf(es[..k + 1], i) == Charged(k)
    ensures j == k
  {
    FateIsFinal(es, i, j + 1);
    FateIsFinal(es, i, k + 1);
  }

  // ----- which swaps of the window are charged -----------------------------

  /** How many later swaps opened a new bucket. */
  function Rotations(es: seq<Event>, i: nat): nat
    requires i < |es|
    decreases |es|
  {
    if i == |es| - 1 then 0 else Rotations(es[..|es| - 1], i) + (if Advances(es, |es| - 1) then 1 else 0)
  }

  /** Until it is charged, a swap sits in the bucket its rotation count says, and is lost after four. */
  lemma {:induction false} UnchargedFate(es: seq<Event>, i: nat)
    requires i < |es| && es[i].SwapMade? && !FateOf(es, i).Charged?
    ensures FateOf(es, i) == if Rotations(es, i) < 4 then Buffered(Rotations(es, i)) else Discarded
    decreases |es|
  {
    if i < |es| - 1 {
      UnchargedFate(es[..|es| - 1], i);
    }
  }

  /**
   The window is 1200 seconds, but only four buckets are kept: a swap inside the window and not yet
   charged is charged by a new position if and only if fewer than four later swaps opened a bucket.
   */
  lemma ChargedIffFewRotations(es: seq<Event>, i: nat)
    requires i < |es| - 1 && es[i].SwapMade? && es[|es| - 1].PositionOpened?
    requires !FateOf(es[..|es| - 1], i).Charged?
    requires es[|es| - 1].now - es[i].timestamp <= 1200
    ensures FateOf(es, i) == Charged(|es| - 1) <==> Rotations(es[..|es| - 1], i) < 4
  {
    UnchargedFate(es[..|es| - 1], i);
  }

  ghost predicate InOrder(es: seq<Event>) {
    forall i, j :: 0 <= i < j < |es| ==> Time(es[i]) <= Time(es[j])
  }

  function Time(e: Event): nat {
    match e
    case SwapMade(timestamp, _, _) => timestamp
    case PositionOpened(now) => now
  }

  lemma {:induction false} MaxIndexBelow(es: seq<Event>, bound: nat)
    requires forall e :: e in es ==> BucketIndex(Time(e)) <= bound
    ensures MaxIndex(es) <= bound
  {
    if es != [] {
      MaxIndexBelow(es[..|es| - 1], bound);
      assert es[|es| - 1] in es;
    }
  }

  lemma {:induction false} RotationsBelow(es: seq<Event>, i: nat)
    requires i < |es| && es[i].SwapMade?
    ensures Rotations(es, i) <= MaxIndex(es) - BucketIndex(es[i].timestamp)
    decreases |es|
  {
    if i == |es| - 1 {
      SwapRaisesMaxIndex(es, i);
    } else {
      RotationsBelow(es[..|es| - 1], i);
    }
  }

  /** With block times in order, every uncharged swap of the last 900 seconds is charged. */
  lemma RecentSwapsAreCharged(es: seq<Event>, i: nat)
    requires InOrder(es) && i < |es| - 1 && es[i].SwapMade? && es[|es| - 1].PositionOpened?
    requires !FateOf(es[..|es| - 1], i).Charged?
    requires es[|es| - 1].now - es[i].timestamp <= 900
    ensures FateOf(es, i) == Charged(|es| - 1)
  {
    var init, now := es[..|es| - 1], es[|es| - 1].now;
    forall e | e in init ensures BucketIndex(Time(e)) <= BucketIndex(now) {
      var j :| 0 <= j < |init| && init[j] == e;
      assert Time(es[j]) <= Time(es[|es| - 1]);
      assert es[j].SwapMade? ==> es[j].timestamp <= now;
    }
    MaxIndexBelow(init, BucketIndex(now));
    RotationsBelow(init, i);
    ChargedIffFewRotations(es, i);
  }

  lemma FateOfLast(es: seq<Event>, e: Event)
    requires e.SwapMade?
    ensures FateOf(es + [e], |es|) == Buffered(0)
  {
  }

  lemma MaxIndexOfLater(es: seq<Event>, e: Event)
    requires e.SwapMade? && BucketIndex(e.timestamp) > MaxIndex(es)
    ensures MaxIndex(es + [e]) == BucketIndex(e.timestamp)
  {
    assert (es + [e])[..|es|] == es;
  }

  lemma FateAfterLater(es: seq<Event>, e: Event, i: nat)
    requires i < |es| && es[i].SwapMade? && FateOf(es, i).Buffered?
    requires e.SwapMade? && BucketIndex(e.timestamp) > MaxIndex(es)
    ensures FateOf(es + [e], i) == if FateOf(es, i).bucket == 3 then Discarded else Buffered(FateOf(es, i).bucket + 1)
  {
    assert (es + [e])[..|es|] == es;
  }

  /** Five swaps in five successive buckets: the first is 901 seconds old, inside the window, and lost. */
  lemma WindowSwapLost()
    ensures var d := Decimal(1, 0);
            var es := [SwapMade(299, [1], d), SwapMade(300, [2], d), SwapMade(600, [3], d), SwapMade(900, [4], d),
                       SwapMade(1200, [5], d)];
            var all := es + [PositionOpened(1200)];
            InOrder(all) && 1200 - es[0].timestamp <= 1200 && FateOf(all, 0) == Discarded
  {
    var d := Decimal(1, 0);
    var e1, e2, e3 := SwapMade(299, [1], d), SwapMade(300, [2], d), SwapMade(600, [3], d);
    var e4, e5 := SwapMade(900, [4], d), SwapMade(1200, [5], d);
    var s1 := [] + [e1];
    var s2 := s1 + [e2];
    var s3 := s2 + [e3];
    var s4 := s3 + [e4];
    var s5 := s4 + [e5];
    MaxIndexOfLater([], e1);
    MaxIndexOfLater(s1, e2);
    MaxIndexOfLater(s2, e3);
    MaxIndexOfLater(s3, e4);
    FateOfLast([], e1);
    FateAfterLater(s1, e2, 0);
    FateAfterLater(s2, e3, 0);
    FateAfterLater(s3, e4, 0);
    FateAfterLater(s4, e5, 0);
    assert s5 == [e1, e2, e3, e4, e5];
    FateIsFinal(s5 + [PositionOpened(1200)], 0, 5);
  }

  // ----- the isAssociated flags --------------------------------------------

  /** The ids associations have flagged. */
  function Flagged(es: seq<Event>): set<Id> {
    if es == [] then {}
    else
      var init, e := es[..|es| - 1], es[|es| - 1];
      Flagged(init) + (if e.PositionOpened? && Run(init).Some? then TakenIds(Run(init).value, e.now) else {})
  }

  ghost predicate DistinctIds(es: seq<Event>) {
    forall i, j :: 0 <= i < j < |es| && es[i].SwapMade? && es[j].SwapMade? ==> es[i].id != es[j].id
  }

  /** An association at `now` takes the swap of event `k` from bucket `b`. */
  predicate TakenAt(es: seq<Event>, k: nat, b: nat, now: nat)
    requires k < |es|
  {
    es[k].SwapMade? && FateOf(es, k) == Buffered(b) && now - es[k].timestamp <= ASSOCIATION_WINDOW
  }

  lemma TakenIdsStep(es: seq<Event>, k: nat, b: nat, now: nat)
    requires k < |es|
    ensures var before := Ids(Taken(Held(es, k, b), now));
            Ids(Taken(Held(es, k + 1, b), now)) == if TakenAt(es, k, b, now) then before + {es[k].id} else before
  {
    var held := Held(es, k, b);
    if es[k].SwapMade? && FateOf(es, k) == Buffered(b) {
      WindowTestsAgree(es[k], now);
      LeftAppend(held, SwapOf(es[k]), now);
      IdsAppend(Taken(held, now), SwapOf(es[k]));
      assert Taken(held, now) + [] == Taken(held, now);
    } else {
      assert Held(es, k + 1, b) == held;
    }
  }

  /** No other swap has the id of the swap of event `i`. */
  ghost predicate OwnId(es: seq<Event>, i: nat)
    requires i < |es| && es[i].SwapMade?
  {
    forall j :: 0 <= j < |es| && j != i && es[j].SwapMade? ==> es[j].id != es[i].id
  }

  lemma {:induction false} TakenFromHeld(es: seq<Event>, k: nat, b: nat, now: nat, i: nat)
    requires k <= |es| && i < |es| && es[i].SwapMade? && OwnId(es, i)
    ensures es[i].id in Ids(Taken(Held(es, k, b), now)) <==> i < k && TakenAt(es, i, b, now)
  {
    if k > 0 {
      TakenFromHeld(es, k - 1, b, now, i);
      TakenIdsStep(es, k - 1, b, now);
    }
  }

  lemma TakenIdsAreInWindow(es: seq<Event>, now: nat, i: nat)
    requires DistinctIds(es) && i < |es| && es[i].SwapMade? && Run(es).Some?
    ensures es[i].id in TakenIds(Run(es).value, now)
        <==> FateOf(es, i).Buffered? && now - es[i].timestamp <= ASSOCIATION_WINDOW
  {
    RingBuckets(es);
    FateBounded(es, i);
    assert OwnId(es, i);
    TakenFromHeld(es, |es|, 0, now, i);
    TakenFromHeld(es, |es|, 1, now, i);
    TakenFromHeld(es, |es|, 2, now, i);
    TakenFromHeld(es, |es|, 3, now, i);
  }

  ghost predicate NeverMade(es: seq<Event>, id: Id) {
    forall i :: 0 <= i < |es| && es[i].SwapMade? ==> es[i].id != id
  }

  lemma {:induction false} NeverMadeNeverTaken(es: seq<Event>, k: nat, b: nat, now: nat, id: Id)
    requires k <= |es| && NeverMade(es, id)
    ensures id !in Ids(Taken(Held(es, k, b), now))
  {
    if k > 0 {
      NeverMadeNeverTaken(es, k - 1, b, now, id);
      TakenIdsStep(es, k - 1, b, now);
    }
  }

  lemma {:induction false} NeverMadeNeverFlagged(es: seq<Event>, id: Id)
    requires NeverMade(es, id)
    ensures id !in Flagged(es)
  {
    if es != [] {
      var init, e := es[..|es| - 1], es[|es| - 1];
      NeverMadeNeverFlagged(init, id);
      if e.PositionOpened? {
        RingBuckets(init);
        NeverMadeNeverTaken(init, |init|, 0, e.now, id);
        NeverMadeNeverTaken(init, |init|, 1, e.now, id);
        NeverMadeNeverTaken(init, |init|, 2, e.now, id);
        NeverMadeNeverTaken(init, |init|, 3, e.now, id);
      }
    }
  }

  /** A swap is flagged as associated exactly when its fate is to be charged. */
  lemma {:induction false} FlaggedIffCharged(es: seq<Event>, i: nat)
    requires DistinctIds(es) && i < |es| && es[i].SwapMade?
    ensures es[i].id in Flagged(es) <==> FateOf(es, i).Charged?
    decreases |es|
  {
    var init, last := es[..|es| - 1], |es| - 1;
    if i == last {
      NeverMadeNeverFlagged(init, es[i].id);
    } else {
      FlaggedIffCharged(init, i);
      FateBounded(init, i);
      if es[last].PositionOpened? {
        if Run(init).Some? {
          TakenIdsAreInWindow(init, es[last].now, i);
        } else {
          RingBuckets(init);
          CurrentIsMaxIndex(init);
          SwapRaisesMaxIndex(init, i);
        }
      }
    }
  }
}
