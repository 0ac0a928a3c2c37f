/**
 Tokenomics epochs: the block intervals closed and opened by settlements, the search for
 the epoch of a block, and the sweep that lists matured bonds.
 */
module Epochs {
  import opened Collections

  const FIRST_START_BLOCK := 16699195

  datatype Bond = Bond(id: nat, amount: int, maturity: int, epoch: Option<nat>)

  /** `matured` stands for the maturedBonds reference list. */
  datatype Epoch = Epoch(startBlock: int, endBlock: Option<int>, settledAt: Option<int>, matured: seq<Bond>,
                         claimable: int)

  datatype State = State(epochs: map<nat, Epoch>, bonds: seq<Bond>)

  const EMPTY := State(map[], [])

  predicate Contains(e: Epoch, block: int) {
    e.startBlock <= block && (e.endBlock.None? || block <= e.endBlock.value)
  }

  // ----- findEpochId -------------------------------------------------------

  /** The epochs from `counter` on: what is left to probe. */
  function FromOn(epochs: map<nat, Epoch>, counter: nat): set<nat> {
    set k | k in epochs && k >= counter
  }

  lemma ProbeShrinks(epochs: map<nat, Epoch>, counter: nat)
    requires counter in epochs
    ensures |FromOn(epochs, counter + 1)| < |FromOn(epochs, counter)|
  {
    assert FromOn(epochs, counter) == FromOn(epochs, counter + 1) + {counter};
  }

  /** The first epoch from `counter` on that contains the block, before the first missing one. */
  function FindFrom(epochs: map<nat, Epoch>, counter: nat, block: int): Option<nat>
    decreases |FromOn(epochs, counter)|
  {
    if counter !in epochs then None
    else if Contains(epochs[counter], block) then Some(counter)
    else
      ProbeShrinks(epochs, counter);
      FindFrom(epochs, counter + 1, block)
  }

  function FindEpoch(epochs: map<nat, Epoch>, block: int): Option<nat> {
    FindFrom(epochs, 1, block)
  }

  // ----- settlement --------------------------------------------------------

  predicate Matures(b: Bond, epoch: nat, lo: int, hi: int) {
    b.epoch == Some(epoch) && lo <= b.maturity <= hi
  }

  /** The bonds of one epoch maturing in the closed window, in creation order. */
  function MaturedIn(bonds: seq<Bond>, epoch: nat, lo: int, hi: int): seq<Bond> {
    if bonds == [] then []
    else
      var last := bonds[|bonds| - 1];
      MaturedIn(bonds[..|bonds| - 1], epoch, lo, hi) + (if Matures(last, epoch, lo, hi) then [last] else [])
  }

  /** ... of the stored epochs among 1 .. n, epoch by epoch. */
  function MaturedThrough(s: State, n: nat, lo: int, hi: int): seq<Bond> {
    if n == 0 then []
    else MaturedThrough(s, n - 1, lo, hi) + (if n in s.epochs then MaturedIn(s.bonds, n, lo, hi) else [])
  }

  function Amounts(bonds: seq<Bond>): int {
    if bonds == [] then 0 else Amounts(bonds[..|bonds| - 1]) + bonds[|bonds| - 1].amount
  }

  /** What a settlement of epoch `n` lists: nothing unless the epoch before it was settled. */
  function Swept(s: State, n: nat, time: int): seq<Bond>
    requires n >= 1
  {
    if n - 1 !in s.epochs || s.epochs[n - 1].settledAt.None? then []
    else MaturedThrough(s, n, s.epochs[n - 1].settledAt.value, time)
  }

  function OpenEpoch(startBlock: int): Epoch {
    Epoch(startBlock, None, None, [], 0)
  }

  /**
   `handleEpochSave`. Only the first epoch may be settled without having been opened: any other has no
   start block then, its row cannot be saved, and the failed handler leaves nothing behind.
   */
  function Settle(s: State, n: nat, block: int, time: int): State
    requires n >= 1
  {
    if n > 1 && n !in s.epochs then s
    else
      var swept := Swept(s, n, time);
      var startBlock := if n == 1 then FIRST_START_BLOCK else s.epochs[n].startBlock;
      s.(epochs := s.epochs[n + 1 := OpenEpoch(block + 1)]
                         [n := Epoch(startBlock, Some(block), Some(time), swept, Amounts(swept))])
  }

  /** `handleCreateBond` and `handleCreateBondV2`. */
  function CreateBond(s: State, id: nat, block: int, amount: int, maturity: int): State {
    s.(bonds := s.bonds + [Bond(id, amount, maturity, FindEpoch(s.epochs, block))])
  }

  // ----- runs --------------------------------------------------------------

  datatype Event =
    | Settled(block: int, time: int)
    | BondCreated(block: int, time: int, id: nat, amount: int, maturity: int)

  function Settlements(es: seq<Event>): seq<Event> {
    if es == [] then []
    else Settlements(es[..|es| - 1]) + (if es[|es| - 1].Settled? then [es[|es| - 1]] else [])
  }

  /** Creation events, in the order of the bonds they make. */
  function Creations(es: seq<Event>): (r: seq<Event>)
    ensures forall k :: 0 <= k < |r| ==> r[k].BondCreated?
  {
    if es == [] then []
    else Creations(es[..|es| - 1]) + (if es[|es| - 1].BondCreated? then [es[|es| - 1]] else [])
  }

  /** Settlements arrive in order, so the k-th one settles epoch k. */
  function Run(es: seq<Event>): (s: State)
    ensures |s.bonds| == |Creations(es)|
  {
    if es == [] then EMPTY
    else
      var init, e := es[..|es| - 1], es[|es| - 1];
      match e
      case Settled(block, time) => Settle(Run(init), |Settlements(init)| + 1, block, time)
      case BondCreated(block, _, id, amount, maturity) => CreateBond(Run(init), id, block, amount, maturity)
  }

  lemma StoredAfterSettle(s: State, n: nat, block: int, time: int, i: nat)
    requires n >= 1 && (i in s.epochs <==> 1 <= i <= n && n > 1) && (n in s.epochs <==> n > 1)
    ensures i in Settle(s, n, block, time).epochs <==> 1 <= i <= n + 1
  {
  }

  /** The epochs stored are those settled and the one open, once any is settled. */
  lemma {:induction false} EpochsStored(es: seq<Event>, i: nat)
    ensures i in Run(es).epochs <==> 1 <= i <= |Settlements(es)| + 1 && |Settlements(es)| > 0
  {
    if es != [] {
      var init, e := es[..|es| - 1], es[|es| - 1];
      var n := |Settlements(init)| + 1;
      EpochsStored(init, i);
      EpochsStored(init, n);
      if e.Settled? {
        StoredAfterSettle(Run(init), n, e.block, e.time, i);
      }
    }
  }

  /** Blocks and block times never decrease, and settlements are in different blocks from the first start block on. */
  ghost predicate InOrder(es: seq<Event>) {
    && (forall i, j :: 0 <= i < j < |es| ==> es[i].block <= es[j].block && es[i].time <= es[j].time)
    && (forall i, j :: 0 <= i < j < |es| && es[i].Settled? && es[j].Settled? ==> es[i].block < es[j].block)
    && (forall i :: 0 <= i < |es| && es[i].Settled? ==> es[i].block >= FIRST_START_BLOCK)
  }

  // ----- the timeline ------------------------------------------------------

  /** Epoch `i` of a run with settlements `t`: from the block after the previous settlement to its own. */
  ghost predicate OnTimeline(e: Epoch, t: seq<Event>, i: nat)
    requires 1 <= i <= |t| + 1
  {
    && e.startBlock == (if i == 1 then 16699195 else t[i - 2].block + 1)
    && e.endBlock == (if i <= |t| then Some(t[i - 1].block) else None)
    && e.settledAt == (if i <= |t| then Some(t[i - 1].time) else None)
  }

  /** For in-order settlements every stored epoch is on the timeline; only the last one is open. */
  lemma {:induction false} EpochsOnTimeline(es: seq<Event>, i: nat)
    requires i in Run(es).epochs
    ensures 1 <= i <= |Settlements(es)| + 1 && OnTimeline(Run(es).epochs[i], Settlements(es), i)
  {
    var init := es[..|es| - 1];
    EpochsStored(es, i);
    EpochsStored(init, i);
    EpochsStored(init, |Settlements(init)| + 1);
    if i in Run(init).epochs {
      EpochsOnTimeline(init, i);
    }
    if |Settlements(init)| + 1 in Run(init).epochs {
      EpochsOnTimeline(init, |Settlements(init)| + 1);
    }
  }

  /** Settlements are in the order of the events. */
  lemma {:induction false} SettlementsInOrder(es: seq<Event>, i: nat, j: nat)
    requires InOrder(es) && i < j < |Settlements(es)|
    ensures Settlements(es)[i].block < Settlements(es)[j].block && Settlements(es)[i].time <= Settlements(es)[j].time
  {
    var init := es[..|es| - 1];
    if j < |Settlements(init)| {
      SettlementsInOrder(init, i, j);
    } else {
      var p := SettlementAt(init, i);
      assert es[p] == init[p];
    }
  }

  lemma {:induction false} SettlementAt(es: seq<Event>, i: nat) returns (p: nat)
    requires i < |Settlements(es)|
    ensures p < |es| && es[p].Settled? && es[p] == Settlements(es)[i] && |Settlements(es[..p])| == i
  {
    var init := es[..|es| - 1];
    if i < |Settlements(init)| {
      p := SettlementAt(init, i);
      assert init[..p] == es[..p];
    } else {
      p := |es| - 1;
    }
  }

  /** How many settlements lie strictly before a block. */
  function SettledBefore(t: seq<Event>, block: int): nat {
    if t == [] then 0 else SettledBefore(t[..|t| - 1], block) + (if t[|t| - 1].block < block then 1 else 0)
  }

  ghost predicate Increasing(t: seq<Event>) {
    forall i, j :: 0 <= i < j < |t| ==> t[i].block < t[j].block
  }

  lemma {:induction false} SettledBeforeSplits(t: seq<Event>, block: int)
    requires Increasing(t)
    ensures SettledBefore(t, block) <= |t|
    ensures forall i :: 0 <= i < |t| ==> (t[i].block < block <==> i < SettledBefore(t, block))
  {
    if t != [] {
      SettledBeforeSplits(t[..|t| - 1], block);
    }
  }

  /**
   The stored epochs partition the blocks: a block is in the epoch after the settlements before it, and in no other.
   */
  lemma BlockInOneEpoch(es: seq<Event>, block: int, i: nat)
    requires InOrder(es) && i in Run(es).epochs && block >= FIRST_START_BLOCK
    ensures Contains(Run(es).epochs[i], block) <==> i == SettledBefore(Settlements(es), block) + 1
  {
    var t := Settlements(es);
    EpochsOnTimeline(es, i);
    forall j, k | 0 <= j < k < |t| ensures t[j].block < t[k].block {
      SettlementsInOrder(es, j, k);
    }
    SettledBeforeSplits(t, block);
  }

  lemma {:induction false} FindReaches(epochs: map<nat, Epoch>, counter: nat, target: nat, block: int)
    requires counter <= target
    requires forall k :: counter <= k <= target ==> k in epochs && (Contains(epochs[k], block) <==> k == target)
    ensures FindFrom(epochs, counter, block) == Some(target)
    decreases target - counter
  {
    if counter < target {
      FindReaches(epochs, counter + 1, target, block);
    }
  }

  /** `findEpochId` returns the unique epoch of any block from the first start block on. */
  lemma FindEpochIsUnique(es: seq<Event>, block: int)
    requires InOrder(es) && Settlements(es) != [] && block >= FIRST_START_BLOCK
    ensures FindEpoch(Run(es).epochs, block) == Some(SettledBefore(Settlements(es), block) + 1)
  {
    var t := Settlements(es);
    forall j, k | 0 <= j < k < |t| ensures t[j].block < t[k].block {
      SettlementsInOrder(es, j, k);
    }
    SettledBeforeSplits(t, block);
    var target := SettledBefore(t, block) + 1;
    forall k | 1 <= k <= target ensures k in Run(es).epochs && (Contains(Run(es).epochs[k], block) <==> k == target) {
      EpochsStored(es, k);
      BlockInOneEpoch(es, block, k);
    }
    FindReaches(Run(es).epochs, 1, target, block);
  }

  // ----- matured bonds -----------------------------------------------------

  ghost predicate DistinctBonds(es: seq<Event>) {
    forall i, j :: 0 <= i < j < |es| && es[i].BondCreated? && es[j].BondCreated? ==> es[i].id != es[j].id
  }

  /** How many settlements had happened when each bond was created. */
  function BornAfter(es: seq<Event>): (r: seq<nat>)
    ensures |r| == |Creations(es)|
  {
    if es == [] then []
    else BornAfter(es[..|es| - 1]) + (if es[|es| - 1].BondCreated? then [|Settlements(es[..|es| - 1])|] else [])
  }

  lemma {:induction false} BondsFollowCreations(es: seq<Event>)
    ensures forall k :: 0 <= k < |Creations(es)| ==>
              Run(es).bonds[k].id == Creations(es)[k].id && Run(es).bonds[k].maturity == Creations(es)[k].maturity
              && Run(es).bonds[k].amount == Creations(es)[k].amount && BornAfter(es)[k] <= |Settlements(es)|
  {
    if es != [] {
      BondsFollowCreations(es[..|es| - 1]);
    }
  }

  /** How often a bond is among the first `n` of a list. */
  function CountTo(bonds: seq<Bond>, b: Bond, n: nat): nat
    requires n <= |bonds|
  {
    if n == 0 then 0 else CountTo(bonds, b, n - 1) + (if bonds[n - 1] == b then 1 else 0)
  }

  /** How often a list holds a bond. */
  function Count(bonds: seq<Bond>, b: Bond): nat {
    CountTo(bonds, b, |bonds|)
  }

  lemma {:induction false} CountToPrefix(x: seq<Bond>, y: seq<Bond>, b: Bond, n: nat)
    requires n <= |x|
    ensures CountTo(x + y, b, n) == CountTo(x, b, n)
  {
    if n > 0 {
      CountToPrefix(x, y, b, n - 1);
    }
  }

  lemma {:induction false} CountToConcat(x: seq<Bond>, y: seq<Bond>, b: Bond, n: nat)
    requires n <= |y|
    ensures CountTo(x + y, b, |x| + n) == Count(x, b) + CountTo(y, b, n)
  {
    if n == 0 {
      CountToPrefix(x, y, b, |x|);
    } else {
      CountToConcat(x, y, b, n - 1);
    }
  }

  lemma CountConcat(x: seq<Bond>, y: seq<Bond>, b: Bond)
    ensures Count(x + y, b) == Count(x, b) + Count(y, b)
  {
    CountToConcat(x, y, b, |y|);
  }

  lemma CountOne(x: seq<Bond>, last: Bond, b: Bond)
    ensures Count(x + [last], b) == Count(x, b) + (if last == b then 1 else 0)
  {
    CountConcat(x, [last], b);
    assert CountTo([last], b, 0) == 0;
  }

  function Once(b: bool): nat {
    if b then 1 else 0
  }

  /** A bond is listed under its own epoch as often as it was created, if it matures in the window. */
  lemma {:induction false} CountMaturedIn(bonds: seq<Bond>, epoch: nat, lo: int, hi: int, b: Bond)
    ensures Count(MaturedIn(bonds, epoch, lo, hi), b) == if Matures(b, epoch, lo, hi) then Count(bonds, b) else 0
  {
    if bonds != [] {
      var init, last := bonds[..|bonds| - 1], bonds[|bonds| - 1];
      CountMaturedIn(init, epoch, lo, hi, b);
      CountOne(init, last, b);
      assert bonds == init + [last];
      if Matures(last, epoch, lo, hi) {
        CountOne(MaturedIn(init, epoch, lo, hi), last, b);
      } else {
        assert MaturedIn(bonds, epoch, lo, hi) == MaturedIn(init, epoch, lo, hi);
      }
    }
  }

  lemma {:induction false} CountMaturedThrough(s: State, n: nat, lo: int, hi: int, b: Bond)
    ensures Count(MaturedThrough(s, n, lo, hi), b)
         == if b.epoch.Some? && 1 <= b.epoch.value <= n && b.epoch.value in s.epochs
             && lo <= b.maturity <= hi then Count(s.bonds, b) else 0
  {
    if n > 0 {
      CountMaturedThrough(s, n - 1, lo, hi, b);
      CountMaturedIn(s.bonds, n, lo, hi, b);
      CountConcat(MaturedThrough(s, n - 1, lo, hi), if n in s.epochs then MaturedIn(s.bonds, n, lo, hi) else [], b);
    }
  }

  lemma {:induction false} CreationIndex(es: seq<Event>, k: nat) returns (p: nat)
    requires k < |Creations(es)|
    ensures p < |es| && es[p].BondCreated? && es[p] == Creations(es)[k]
    ensures |Creations(es[..p])| == k && BornAfter(es)[k] == |Settlements(es[..p])|
  {
    var init := es[..|es| - 1];
    if k < |Creations(init)| {
      p := CreationIndex(init, k);
      assert init[..p] == es[..p];
    } else {
      p := |es| - 1;
    }
  }

  /** Bonds of a run have distinct ids. */
  lemma {:induction false} BondIdsDistinct(es: seq<Event>, j: nat, k: nat)
    requires DistinctBonds(es) && j < k < |Run(es).bonds|
    ensures Run(es).bonds[j].id != Run(es).bonds[k].id
  {
    BondsFollowCreations(es);
    var init := es[..|es| - 1];
    BondsFollowCreations(init);
    if k < |Creations(init)| {
      BondIdsDistinct(init, j, k);
    } else {
      var p := CreationIndex(init, j);
      assert es[p] == init[p];
    }
  }

  lemma {:induction false} CountAbsent(bonds: seq<Bond>, b: Bond, n: nat)
    requires n <= |bonds| && forall k :: 0 <= k < n ==> bonds[k].id != b.id
    ensures CountTo(bonds, b, n) == 0
  {
    if n > 0 {
      CountAbsent(bonds, b, n - 1);
    }
  }

  lemma {:induction false} CountDistinct(bonds: seq<Bond>, k: nat, n: nat)
    requires k < |bonds| && n <= |bonds|
    requires forall i, j :: 0 <= i < j < |bonds| ==> bonds[i].id != bonds[j].id
    ensures CountTo(bonds, bonds[k], n) == if k < n then 1 else 0
  {
    if n > 0 {
      CountDistinct(bonds, k, n - 1);
      if k < n - 1 {
        assert bonds[k].id != bonds[n - 1].id;
      } else if n - 1 < k {
        assert bonds[n - 1].id != bonds[k].id;
      }
    }
  }

  predicate FiledRight(b: Bond, born: nat, block: int) {
    && (b.epoch.Some? <==> born >= 1 && block >= FIRST_START_BLOCK)
    && (b.epoch.Some? ==> 1 <= b.epoch.value <= born + 1)
  }

  lemma NewBondFiled(es: seq<Event>, block: int)
    requires InOrder(es)
    ensures FiledRight(Bond(0, 0, 0, FindEpoch(Run(es).epochs, block)), |Settlements(es)|, block)
  {
    var t := Settlements(es);
    if t != [] && block >= FIRST_START_BLOCK {
      FindEpochIsUnique(es, block);
      forall i, j | 0 <= i < j < |t| ensures t[i].block < t[j].block {
        SettlementsInOrder(es, i, j);
      }
      SettledBeforeSplits(t, block);
    } else if t != [] {
      NothingBeforeFirstBlock(es, block);
    }
  }

  /** A bond created after `born` settlements is filed under an epoch unless that is none, or the block is too early. */
  lemma {:induction false} BondFiled(es: seq<Event>, k: nat)
    requires InOrder(es) && k < |Run(es).bonds|
    ensures FiledRight(Run(es).bonds[k], BornAfter(es)[k], BlockOf(es, k))
  {
    var init, e := es[..|es| - 1], es[|es| - 1];
    if k < |Creations(init)| {
      BondFiled(init, k);
    } else {
      NewBondFiled(init, e.block);
    }
  }

  function BlockOf(es: seq<Event>, k: nat): int
    requires k < |Creations(es)|
  {
    Creations(es)[k].block
  }

  lemma NothingBeforeFirstBlock(es: seq<Event>, block: int)
    requires InOrder(es) && block < FIRST_START_BLOCK
    ensures FindEpoch(Run(es).epochs, block) == None
  {
    NotFound(Run(es).epochs, 1, block, es);
  }

  lemma {:induction false} NotFound(epochs: map<nat, Epoch>, counter: nat, block: int, es: seq<Event>)
    requires InOrder(es) && block < FIRST_START_BLOCK && epochs == Run(es).epochs && counter >= 1
    ensures FindFrom(epochs, counter, block) == None
    decreases |FromOn(epochs, counter)|
  {
    if counter in epochs {
      EpochsOnTimeline(es, counter);
      if counter >= 2 {
        var p := SettlementAt(es, counter - 2);
      }
      ProbeShrinks(epochs, counter);
      NotFound(epochs, counter + 1, block, es);
    }
  }

  lemma SettlementsKept(es: seq<Event>, n: nat)
    requires es != [] && n <= |Settlements(es[..|es| - 1])|
    ensures n <= |Settlements(es)| && Settlements(es)[..n] == Settlements(es[..|es| - 1])[..n]
  {
  }

  /** The epoch after the settlements strictly before a block; none before the first one or the first start block. */
  function EpochAfter(t: seq<Event>, block: int): Option<nat> {
    if t == [] || block < 16699195 then None else Some(SettledBefore(t, block) + 1)
  }

  lemma FindsEpochAfter(es: seq<Event>, block: int)
    requires InOrder(es)
    ensures FindEpoch(Run(es).epochs, block) == EpochAfter(Settlements(es), block)
  {
    if Settlements(es) == [] {
      EpochsStored(es, 1);
    } else if block < FIRST_START_BLOCK {
      NothingBeforeFirstBlock(es, block);
    } else {
      FindEpochIsUnique(es, block);
    }
  }

  lemma InOrderPrefix(es: seq<Event>)
    requires InOrder(es) && es != []
    ensures InOrder(es[..|es| - 1])
  {
  }

  lemma NewBondEpoch(es: seq<Event>)
    requires InOrder(es) && es != [] && es[|es| - 1].BondCreated?
    ensures Run(es).bonds[|Creations(es)| - 1].epoch
         == EpochAfter(Settlements(es[..|es| - 1]), es[|es| - 1].block)
  {
    InOrderPrefix(es);
    FindsEpochAfter(es[..|es| - 1], es[|es| - 1].block);
  }

  /** A bond is filed under the epoch its block lies in by the settlements that had happened, if there is one. */
  lemma {:induction false} BondFiledUnder(es: seq<Event>, k: nat)
    requires InOrder(es) && k < |Creations(es)|
    ensures BornAfter(es)[k] <= |Settlements(es)|
    ensures Run(es).bonds[k].epoch == EpochAfter(Settlements(es)[..BornAfter(es)[k]], Creations(es)[k].block)
  {
    var init := es[..|es| - 1];
    BondsFollowCreations(es);
    if k < |Creations(init)| {
      InOrderPrefix(es);
      BondFiledUnder(init, k);
      SettlementsKept(es, BornAfter(init)[k]);
    } else {
      NewBondEpoch(es);
      assert Settlements(init)[..|Settlements(init)|] == Settlements(init);
    }
  }

  // ----- the order of a list -----------------------------------------------

  /** Bond `a` was created before bond `b`. */
  ghost predicate CreatedBefore(bonds: seq<Bond>, a: Bond, b: Bond) {
    exists i, j :: 0 <= i < j < |bonds| && bonds[i] == a && bonds[j] == b
  }

  lemma CreatedBeforeLonger(bonds: seq<Bond>, a: Bond, b: Bond)
    requires bonds != [] && CreatedBefore(bonds[..|bonds| - 1], a, b)
    ensures CreatedBefore(bonds, a, b)
  {
    var init := bonds[..|bonds| - 1];
    var i, j :| 0 <= i < j < |init| && init[i] == a && init[j] == b;
    assert bonds[i] == a && bonds[j] == b;
  }

  lemma {:induction false} MaturedInOrder(bonds: seq<Bond>, epoch: nat, lo: int, hi: int, p: nat, q: nat)
    requires p < q < |MaturedIn(bonds, epoch, lo, hi)|
    ensures var list := MaturedIn(bonds, epoch, lo, hi);
            list[p].epoch == list[q].epoch == Some(epoch) && CreatedBefore(bonds, list[p], list[q])
  {
    var init, n := bonds[..|bonds| - 1], |bonds| - 1;
    var list, before := MaturedIn(bonds, epoch, lo, hi), MaturedIn(init, epoch, lo, hi);
    MaturedInEpoch(bonds, epoch, lo, hi, p);
    MaturedInEpoch(bonds, epoch, lo, hi, q);
    if q < |before| {
      MaturedInOrder(init, epoch, lo, hi, p, q);
      CreatedBeforeLonger(bonds, list[p], list[q]);
    } else {
      MaturedInAreBonds(init, epoch, lo, hi);
      assert before[p] in before;
      var i :| 0 <= i < n && init[i] == before[p];
      assert bonds[i] == list[p] && bonds[n] == list[q];
    }
  }

  /** The first of two entries of a list is of an earlier epoch, or of the same one and created first. */
  ghost predicate InListOrder(bonds: seq<Bond>, a: Bond, b: Bond) {
    && a.epoch.Some? && b.epoch.Some?
    && (a.epoch.value < b.epoch.value || (a.epoch == b.epoch && CreatedBefore(bonds, a, b)))
  }

  lemma {:induction false} MaturedInEpoch(bonds: seq<Bond>, epoch: nat, lo: int, hi: int, p: nat)
    requires p < |MaturedIn(bonds, epoch, lo, hi)|
    ensures MaturedIn(bonds, epoch, lo, hi)[p].epoch == Some(epoch)
  {
    if p < |MaturedIn(bonds[..|bonds| - 1], epoch, lo, hi)| {
      MaturedInEpoch(bonds[..|bonds| - 1], epoch, lo, hi, p);
    }
  }

  lemma {:induction false} MaturedThroughEpoch(s: State, n: nat, lo: int, hi: int, p: nat)
    requires p < |MaturedThrough(s, n, lo, hi)|
    ensures MaturedThrough(s, n, lo, hi)[p].epoch.Some? && MaturedThrough(s, n, lo, hi)[p].epoch.value <= n
  {
    var before := |MaturedThrough(s, n - 1, lo, hi)|;
    if p < before {
      MaturedThroughEpoch(s, n - 1, lo, hi, p);
    } else {
      MaturedInEpoch(s.bonds, n, lo, hi, p - before);
    }
  }

  lemma {:induction false} MaturedThroughOrder(s: State, n: nat, lo: int, hi: int, p: nat, q: nat)
    requires p < q < |MaturedThrough(s, n, lo, hi)|
    ensures InListOrder(s.bonds, MaturedThrough(s, n, lo, hi)[p], MaturedThrough(s, n, lo, hi)[q])
  {
    var before := |MaturedThrough(s, n - 1, lo, hi)|;
    if q < before {
      MaturedThroughOrder(s, n - 1, lo, hi, p, q);
    } else if p < before {
      MaturedThroughEpoch(s, n - 1, lo, hi, p);
      MaturedInEpoch(s.bonds, n, lo, hi, q - before);
    } else {
      MaturedInOrder(s.bonds, n, lo, hi, p - before, q - before);
    }
  }

  lemma {:induction false} ListOrderKept(bonds: seq<Bond>, more: seq<Bond>, a: Bond, b: Bond)
    requires InListOrder(bonds, a, b)
    ensures InListOrder(bonds + more, a, b)
  {
    if a.epoch == b.epoch && CreatedBefore(bonds, a, b) {
      var i, j :| 0 <= i < j < |bonds| && bonds[i] == a && bonds[j] == b;
      assert (bonds + more)[i] == a && (bonds + more)[j] == b;
    }
  }

  /** Every list is in the order of the epochs and, within an epoch, of creation. */
  lemma {:induction false} ListsAreOrdered(es: seq<Event>, m: nat, p: nat, q: nat)
    requires m in Run(es).epochs && p < q < |Run(es).epochs[m].matured|
    ensures InListOrder(Run(es).bonds, Run(es).epochs[m].matured[p], Run(es).epochs[m].matured[q])
    decreases |es|
  {
    var init, e := es[..|es| - 1], es[|es| - 1];
    var s, n := Run(init), |Settlements(init)| + 1;
    EpochsStored(init, m);
    EpochsStored(init, n);
    if e.Settled? && m == n {
      MaturedThroughOrder(s, n, s.epochs[n - 1].settledAt.value, e.time, p, q);
    } else {
      ListsAreOrdered(init, m, p, q);
      if e.BondCreated? {
        ListOrderKept(s.bonds, [Run(es).bonds[|s.bonds|]], s.epochs[m].matured[p], s.epochs[m].matured[q]);
      }
    }
  }

  /** A listing predicts: the bond was filed before the settlement and matures in its closed window. */
  predicate Listed(es: seq<Event>, k: nat, m: nat)
    requires k < |Run(es).bonds| && 1 <= m <= |Settlements(es)|
  {
    var b, t := Run(es).bonds[k], Settlements(es);
    m >= 2 && b.epoch.Some? && BornAfter(es)[k] < m && t[m - 2].time <= b.maturity <= t[m - 1].time
  }

  /** Later events change neither a bond, nor when it was filed, nor an earlier settlement. */
  lemma ListedStays(es: seq<Event>, k: nat, m: nat)
    requires es != [] && k < |Run(es[..|es| - 1]).bonds| && 1 <= m <= |Settlements(es[..|es| - 1])|
    ensures k < |Run(es).bonds| && Run(es).bonds[k] == Run(es[..|es| - 1]).bonds[k]
    ensures Listed(es, k, m) == Listed(es[..|es| - 1], k, m)
    ensures m in Run(es).epochs && Run(es).epochs[m].matured == Run(es[..|es| - 1]).epochs[m].matured
  {
    var init := es[..|es| - 1];
    assert BornAfter(es)[k] == BornAfter(init)[k];
    EpochsStored(init, m);
  }

  /**
   Exactly which bonds an epoch lists, in every run: bond `k` is in epoch m's maturedBonds once if it was
   filed under some epoch before settlement m and matures in the closed window between settlements m - 1
   and m, and otherwise not at all.
   */
  lemma {:induction false} MaturedBondsExactly(es: seq<Event>, k: nat, m: nat)
    requires InOrder(es) && DistinctBonds(es)
    requires k < |Run(es).bonds| && 1 <= m <= |Settlements(es)|
    ensures m in Run(es).epochs
    ensures Count(Run(es).epochs[m].matured, Run(es).bonds[k]) == Once(Listed(es, k, m))
    decreases |es|
  {
    var init := es[..|es| - 1];
    if m > |Settlements(init)| {
      NewlyListed(es, k);
    } else if k < |Run(init).bonds| {
      MaturedBondsExactly(init, k, m);
      ListedStays(es, k, m);
    } else {
      NewBondListedNowhere(es, k, m);
    }
  }

  lemma NewBondListedNowhere(es: seq<Event>, k: nat, m: nat)
    requires DistinctBonds(es) && es != [] && |Run(es[..|es| - 1]).bonds| <= k < |Run(es).bonds|
    requires 1 <= m <= |Settlements(es[..|es| - 1])|
    ensures m in Run(es).epochs && m <= |Settlements(es)|
    ensures Count(Run(es).epochs[m].matured, Run(es).bonds[k]) == 0 && !Listed(es, k, m)
  {
    EpochsStored(es[..|es| - 1], m);
    NewBondUnlisted(es, m);
  }

  lemma NewBondUnlisted(es: seq<Event>, m: nat)
    requires DistinctBonds(es) && es != [] && es[|es| - 1].BondCreated? && m in Run(es[..|es| - 1]).epochs
    ensures Count(Run(es[..|es| - 1]).epochs[m].matured, Run(es).bonds[|Run(es).bonds| - 1]) == 0
  {
    var init := es[..|es| - 1];
    var matured, n := Run(init).epochs[m].matured, |Run(init).bonds|;
    ListedBondsExist(init, m);
    forall j | 0 <= j < |matured| ensures matured[j].id != Run(es).bonds[n].id {
      assert matured[j] in matured;
      var i :| 0 <= i < n && Run(init).bonds[i] == matured[j];
      BondIdsDistinct(es, i, n);
    }
    CountAbsent(matured, Run(es).bonds[n], |matured|);
  }

  lemma FiledBeforeEnd(es: seq<Event>, k: nat)
    requires InOrder(es) && es != [] && es[|es| - 1].Settled? && k < |Run(es[..|es| - 1]).bonds|
    ensures var b, m := Run(es[..|es| - 1]).bonds[k], |Settlements(es)|;
            BornAfter(es)[k] < m && (b.epoch.Some?
                ==> 1 <= b.epoch.value <= m && b.epoch.value in Run(es[..|es| - 1]).epochs)
  {
    var init := es[..|es| - 1];
    BondFiled(init, k);
    BondsFollowCreations(init);
    if Run(init).bonds[k].epoch.Some? {
      EpochsStored(init, Run(init).bonds[k].epoch.value);
    }
  }

  lemma CreatedOnce(es: seq<Event>, k: nat)
    requires DistinctBonds(es) && k < |Run(es).bonds|
    ensures Count(Run(es).bonds, Run(es).bonds[k]) == 1
  {
    forall i, j | 0 <= i < j < |Run(es).bonds| ensures Run(es).bonds[i].id != Run(es).bonds[j].id {
      BondIdsDistinct(es, i, j);
    }
    CountDistinct(Run(es).bonds, k, |Run(es).bonds|);
  }

  lemma RunSettles(es: seq<Event>)
    requires es != [] && es[|es| - 1].Settled?
    ensures var s, m, e := Run(es[..|es| - 1]), |Settlements(es)|, es[|es| - 1];
            m >= 1 && (m == 1 || m in s.epochs) && Run(es) == Settle(s, m, e.block, e.time) && Run(es).bonds == s.bonds
  {
    EpochsStored(es[..|es| - 1], |Settlements(es)|);
  }

  lemma FirstSettlementListsNothing(es: seq<Event>, k: nat)
    requires es != [] && es[|es| - 1].Settled? && k < |Run(es).bonds| && |Settlements(es)| == 1
    ensures 1 in Run(es).epochs && Count(Run(es).epochs[1].matured, Run(es).bonds[k]) == 0 && !Listed(es, k, 1)
  {
    RunSettles(es);
    EpochsStored(es[..|es| - 1], 0);
  }

  lemma SettleLists(s: State, s': State, t: seq<Event>, m: nat, e: Event, b: Bond)
    requires 2 <= m <= |t| && m in s.epochs && m - 1 in s.epochs && t[m - 1] == e
    requires s.epochs[m - 1].settledAt == Some(t[m - 2].time) && s' == Settle(s, m, e.block, e.time)
    ensures var own := b.epoch.Some? && 1 <= b.epoch.value <= m && b.epoch.value in s.epochs;
            m in s'.epochs && Count(s'.epochs[m].matured, b) == if own
                && WindowHas(t, m, b.maturity) then Count(s.bonds, b) else 0
  {
    CountMaturedThrough(s, m, t[m - 2].time, e.time, b);
  }

  /** The epoch before the one a settlement closes was settled at the settlement before. */
  lemma PreviousSettledAt(es: seq<Event>)
    requires es != [] && es[|es| - 1].Settled? && |Settlements(es)| >= 2
    ensures var s, t, m := Run(es[..|es| - 1]), Settlements(es), |Settlements(es)|;
            m in s.epochs && m - 1 in s.epochs && s.epochs[m - 1].settledAt == Some(t[m - 2].time)
                && t[m - 1] == es[|es| - 1]
  {
    var init, m := es[..|es| - 1], |Settlements(es)|;
    EpochsStored(init, m);
    EpochsStored(init, m - 1);
    EpochsOnTimeline(init, m - 1);
    assert Settlements(es)[m - 2] == Settlements(init)[m - 2];
  }

  lemma LaterSettlementLists(es: seq<Event>, b: Bond)
    requires es != [] && es[|es| - 1].Settled? && |Settlements(es)| >= 2
    ensures var s, m := Run(es[..|es| - 1]), |Settlements(es)|;
            var own := b.epoch.Some? && 1 <= b.epoch.value <= m && b.epoch.value in s.epochs;
            m in Run(es).epochs
            && Count(Run(es).epochs[m].matured, b) == if own
                && WindowHas(Settlements(es), m, b.maturity) then Count(s.bonds, b) else 0
  {
    PreviousSettledAt(es);
    RunSettles(es);
    SettleLists(Run(es[..|es| - 1]), Run(es), Settlements(es), |Settlements(es)|, es[|es| - 1], b);
  }

  lemma NewlyListed(es: seq<Event>, k: nat)
    requires InOrder(es) && DistinctBonds(es) && es != [] && es[|es| - 1].Settled?
    requires k < |Run(es).bonds|
    ensures var m := |Settlements(es)|;
            m in Run(es).epochs
            && Count(Run(es).epochs[m].matured, Run(es).bonds[k]) == Once(Listed(es, k, m))
  {
    if |Settlements(es)| == 1 {
      FirstSettlementListsNothing(es, k);
    } else {
      RunSettles(es);
      FiledBeforeEnd(es, k);
      CreatedOnce(es[..|es| - 1], k);
      LaterSettlementLists(es, Run(es).bonds[k]);
      ListedIffWindow(es, k, |Settlements(es)|);
    }
  }

  lemma {:induction false} MaturedInAreBonds(bonds: seq<Bond>, epoch: nat, lo: int, hi: int)
    ensures forall b :: b in MaturedIn(bonds, epoch, lo, hi) ==> b in bonds
  {
    if bonds != [] {
      MaturedInAreBonds(bonds[..|bonds| - 1], epoch, lo, hi);
    }
  }

  lemma {:induction false} MaturedThroughAreBonds(s: State, n: nat, lo: int, hi: int)
    ensures forall b :: b in MaturedThrough(s, n, lo, hi) ==> b in s.bonds
  {
    if n > 0 {
      MaturedThroughAreBonds(s, n - 1, lo, hi);
      MaturedInAreBonds(s.bonds, n, lo, hi);
    }
  }

  lemma {:induction false} ListedBondsExist(es: seq<Event>, m: nat)
    requires m in Run(es).epochs
    ensures forall b :: b in Run(es).epochs[m].matured ==> b in Run(es).bonds
  {
    var init, e := es[..|es| - 1], es[|es| - 1];
    if m in Run(init).epochs {
      ListedBondsExist(init, m);
    }
    if e.Settled? {
      var s, n := Run(init), |Settlements(init)| + 1;
      if n - 1 in s.epochs && s.epochs[n - 1].settledAt.Some? {
        MaturedThroughAreBonds(s, n, s.epochs[n - 1].settledAt.value, e.time);
      }
    }
  }

  lemma {:induction false} AmountsAppend(s: seq<Bond>, t: seq<Bond>)
    ensures Amounts(s + t) == Amounts(s) + Amounts(t)
    ensures forall b: Bond :: Amounts([b]) == b.amount
  {
    assert forall b: Bond :: [b][..0] == [];
    if t == [] {
      assert s + t == s;
    } else {
      AmountsAppend(s, t[..|t| - 1]);
      assert (s + t)[..|s + t| - 1] == s + t[..|t| - 1];
    }
  }

  /** totalBondsClaimable is the sum of the amounts over the list, in every run. */
  lemma {:induction false} ClaimableIsListSum(es: seq<Event>, m: nat)
    requires m in Run(es).epochs
    ensures Run(es).epochs[m].claimable == Amounts(Run(es).epochs[m].matured)
  {
    if m in Run(es[..|es| - 1]).epochs {
      ClaimableIsListSum(es[..|es| - 1], m);
    }
  }

  ghost predicate TimesSorted(t: seq<Event>) {
    forall i, j :: 0 <= i <= j < |t| ==> t[i].time <= t[j].time
  }

  lemma SettlementTimes(es: seq<Event>)
    requires InOrder(es)
    ensures TimesSorted(Settlements(es))
  {
    var t := Settlements(es);
    forall i, j | 0 <= i <= j < |t| ensures t[i].time <= t[j].time {
      if i < j {
        SettlementsInOrder(es, i, j);
      }
    }
  }

  /** Settlement n closes the window of a time. */
  predicate WindowHas(t: seq<Event>, n: nat, time: int)
    requires 1 <= n <= |t|
  {
    n >= 2 && t[n - 2].time <= time <= t[n - 1].time
  }

  lemma InteriorWindow(t: seq<Event>, m: nat, n: nat, time: int)
    requires TimesSorted(t) && 2 <= m <= |t| && 1 <= n <= |t| && t[m - 2].time < time < t[m - 1].time
    ensures WindowHas(t, n, time) <==> n == m
  {
    if n < m {
      assert t[n - 1].time <= t[m - 2].time;
    } else if n > m {
      assert t[m - 1].time <= t[n - 2].time;
    }
  }

  lemma ListedIffWindow(es: seq<Event>, k: nat, m: nat)
    requires k < |Run(es).bonds| && 1 <= m <= |Settlements(es)|
    ensures Listed(es, k, m)
      <==> Run(es).bonds[k].epoch.Some? && BornAfter(es)[k] < m && WindowHas(Settlements(es), m,
                                                                             Run(es).bonds[k].maturity)
  {
  }

  /** A bond that matures after its creation and before settlement m was created before settlement m. */
  lemma MaturesLaterBornEarlier(es: seq<Event>, k: nat, m: nat)
    requires InOrder(es) && k < |Creations(es)| && 1 <= m <= |Settlements(es)|
    requires Creations(es)[k].time < Settlements(es)[m - 1].time
    ensures BornAfter(es)[k] < m
  {
    var p := CreationIndex(es, k);
    var q := SettlementAt(es, m - 1);
    if p <= q {
      FewerSettlementsBefore(es, p, q);
    }
  }

  lemma {:induction false} FewerSettlementsBefore(es: seq<Event>, p: nat, q: nat)
    requires p <= q <= |es|
    ensures |Settlements(es[..p])| <= |Settlements(es[..q])|
    decreases q
  {
    if p < q {
      FewerSettlementsBefore(es, p, q - 1);
      assert es[..q][..q - 1] == es[..q - 1];
    }
  }

  /**
   An attributed bond that matures after its creation, strictly between two successive settlements,
   is listed by exactly one epoch, the one that the later settlement closes, and there exactly once.
   */
  lemma InteriorMaturityListedOnce(es: seq<Event>, k: nat, m: nat, n: nat)
    requires InOrder(es) && DistinctBonds(es) && k < |Run(es).bonds|
    requires 2 <= m <= |Settlements(es)| && 1 <= n <= |Settlements(es)|
    requires Run(es).bonds[k].epoch.Some? && Creations(es)[k].time < Run(es).bonds[k].maturity
    requires Settlements(es)[m - 2].time < Run(es).bonds[k].maturity < Settlements(es)[m - 1].time
    ensures n in Run(es).epochs
    ensures Count(Run(es).epochs[n].matured, Run(es).bonds[k]) == Once(n == m)
  {
    MaturesLaterBornEarlier(es, k, m);
    MaturedBondsExactly(es, k, n);
    ListedIffWindow(es, k, n);
    SettlementTimes(es);
    InteriorWindow(Settlements(es), m, n, Run(es).bonds[k].maturity);
  }

  /** Bond `k` is filed and matures, after its creation, exactly at settlement m, which is between two swept epochs. */
  ghost predicate MaturesAt(es: seq<Event>, k: nat, m: nat) {
    && InOrder(es) && DistinctBonds(es) && k < |Run(es).bonds| && 2 <= m < |Settlements(es)|
    && Run(es).bonds[k].epoch.Some? && Creations(es)[k].time < Run(es).bonds[k].maturity
    && Run(es).bonds[k].maturity == Settlements(es)[m - 1].time
  }

  lemma BoundaryListed(es: seq<Event>, k: nat, m: nat, n: nat)
    requires MaturesAt(es, k, m) && (n == m || n == m + 1)
    ensures n in Run(es).epochs && Count(Run(es).epochs[n].matured, Run(es).bonds[k]) == 1
  {
    MaturesLaterBornEarlier(es, k, m);
    MaturedBondsExactly(es, k, n);
    ListedIffWindow(es, k, n);
    SettlementTimes(es);
    assert Settlements(es)[m - 2].time <= Settlements(es)[m - 1].time <= Settlements(es)[m].time;
  }

  /**
   A bond maturing exactly at a settlement between two swept epochs is listed by both of them: the
   window is closed at both ends.
   */
  lemma BoundaryMaturityListedTwice(es: seq<Event>, k: nat, m: nat)
    requires MaturesAt(es, k, m)
    ensures m in Run(es).epochs && m + 1 in Run(es).epochs
    ensures Count(Run(es).epochs[m].matured, Run(es).bonds[k]) == 1
    ensures Count(Run(es).epochs[m + 1].matured, Run(es).bonds[k]) == 1
  {
    BoundaryListed(es, k, m, m);
    BoundaryListed(es, k, m, m + 1);
  }

  /** A bond created before the first settlement is filed under no epoch, so no epoch ever lists it. */
  lemma EarlyBondNeverListed(es: seq<Event>, k: nat, m: nat)
    requires InOrder(es) && DistinctBonds(es) && k < |Run(es).bonds|
    requires BornAfter(es)[k] == 0 && 1 <= m <= |Settlements(es)|
    ensures m in Run(es).epochs && Count(Run(es).epochs[m].matured, Run(es).bonds[k]) == 0
  {
    BondFiled(es, k);
    MaturedBondsExactly(es, k, m);
  }

  // ----- two short runs ----------------------------------------------------

  lemma SettlementAppended(es: seq<Event>, e: Event)
    requires e.Settled?
    ensures Settlements(es + [e]) == Settlements(es) + [e]
    ensures Creations(es + [e]) == Creations(es) && BornAfter(es + [e]) == BornAfter(es)
  {
    assert (es + [e])[..|es|] == es;
  }

  lemma CreationAppended(es: seq<Event>, e: Event)
    requires e.BondCreated?
    ensures Settlements(es + [e]) == Settlements(es)
    ensures Creations(es + [e]) == Creations(es) + [e] && BornAfter(es + [e]) == BornAfter(es) + [|Settlements(es)|]
  {
    assert (es + [e])[..|es|] == es;
  }

  /** One bond created between the first two of three settlements and maturing at the second one. */
  ghost predicate BoundaryRun(es: seq<Event>) {
    && InOrder(es) && DistinctBonds(es) && |Settlements(es)| == 3 && |Creations(es)| == 1 && BornAfter(es) == [1]
    && Creations(es)[0].block >= FIRST_START_BLOCK
    && Creations(es)[0].time < Creations(es)[0].maturity && Creations(es)[0].maturity == Settlements(es)[1].time
  }

  /** One bond created before the first of two settlements and maturing between them. */
  ghost predicate EarlyRun(es: seq<Event>) {
    && InOrder(es) && DistinctBonds(es) && |Settlements(es)| == 2 && |Creations(es)| == 1 && BornAfter(es) == [0]
    && Settlements(es)[0].time <= Creations(es)[0].maturity <= Settlements(es)[1].time
  }

  lemma BoundaryListsTwice(es: seq<Event>)
    requires BoundaryRun(es)
    ensures 2 in Run(es).epochs && 3 in Run(es).epochs
    ensures Count(Run(es).epochs[2].matured, Run(es).bonds[0]) == 1
        && Count(Run(es).epochs[3].matured, Run(es).bonds[0]) == 1
  {
    BondFiled(es, 0);
    BondsFollowCreations(es);
    BoundaryMaturityListedTwice(es, 0, 2);
  }

  lemma EarlyListsNever(es: seq<Event>)
    requires EarlyRun(es)
    ensures 1 in Run(es).epochs && 2 in Run(es).epochs
    ensures Count(Run(es).epochs[1].matured, Run(es).bonds[0]) == 0
        && Count(Run(es).epochs[2].matured, Run(es).bonds[0]) == 0
  {
    EarlyBondNeverListed(es, 0, 1);
    EarlyBondNeverListed(es, 0, 2);
  }

  lemma ShapeOfFour(e1: Event, e2: Event, e3: Event, e4: Event)
    requires e1.Settled? && e2.BondCreated? && e3.Settled? && e4.Settled?
    ensures var es := [e1, e2, e3, e4]; Settlements(es) == [e1, e3, e4] && Creations(es) == [e2] && BornAfter(es) == [1]
  {
    assert [] + [e1] == [e1] && [e1] + [e2] == [e1, e2] && [e1, e2] + [e3] == [e1, e2, e3];
    assert [e1, e2, e3] + [e4] == [e1, e2, e3, e4];
    SettlementAppended([], e1);
    CreationAppended([e1], e2);
    SettlementAppended([e1, e2], e3);
    SettlementAppended([e1, e2, e3], e4);
  }

  lemma ShapeOfThree(e1: Event, e2: Event, e3: Event)
    requires e1.BondCreated? && e2.Settled? && e3.Settled?
    ensures var es := [e1, e2, e3]; Settlements(es) == [e2, e3] && Creations(es) == [e1] && BornAfter(es) == [0]
  {
    assert [] + [e1] == [e1] && [e1] + [e2] == [e1, e2] && [e1, e2] + [e3] == [e1, e2, e3];
    CreationAppended([], e1);
    SettlementAppended([e1], e2);
    SettlementAppended([e1, e2], e3);
  }

  /** Such runs exist: the list of the settlement at its maturity and the next one both hold the bond. */
  lemma BoundaryWitness(id: nat, amount: int)
    ensures var b := FIRST_START_BLOCK;
            BoundaryRun([Settled(b, 100), BondCreated(b + 1, 150, id, amount, 200), Settled(b + 2, 200),
                         Settled(b + 3, 300)])
  {
    var b := FIRST_START_BLOCK;
    ShapeOfFour(Settled(b, 100), BondCreated(b + 1, 150, id, amount, 200), Settled(b + 2, 200), Settled(b + 3, 300));
  }

  /** ... and runs with a bond that no list ever holds. */
  lemma EarlyBondWitness(id: nat, amount: int)
    ensures var b := FIRST_START_BLOCK;
            EarlyRun([BondCreated(b, 50, id, amount, 150), Settled(b + 1, 100), Settled(b + 2, 200)])
  {
    var b := FIRST_START_BLOCK;
    ShapeOfThree(BondCreated(b, 50, id, amount, 150), Settled(b + 1, 100), Settled(b + 2, 200));
  }

  // ----- the handlers ------------------------------------------------------

  /** The Epoch and CreateBond tables; a bond's epoch field is what the derived createBonds list is read from. */
  class EpochStore {
    var epochs: map<nat, Epoch>
    var bonds: seq<Bond>

    function Snapshot(): State
      reads this
    {
      State(epochs, bonds)
    }

    constructor ()
      ensures Snapshot() == EMPTY
    {
      epochs, bonds := map[], [];
    }

    /** `findEpochId`: the search ends for every stored table. */
    method FindEpochId(block: int) returns (id: Option<nat>)
      ensures id == FindEpoch(epochs, block)
    {
      var epochCounter: nat := 1;
      while true
        invariant FindEpoch(epochs, block) == FindFrom(epochs, epochCounter, block)
        decreases |FromOn(epochs, epochCounter)|
      {
        if epochCounter !in epochs {
          break;
        }
        if Contains(epochs[epochCounter], block) {
          return Some(epochCounter);
        }
        ProbeShrinks(epochs, epochCounter);
        epochCounter := epochCounter + 1;
      }
      id := None;
    }

    method HandleCreateBond(id: nat, block: int, amount: int, maturity: int)
      modifies this
      ensures Snapshot() == CreateBond(old(Snapshot()), id, block, amount, maturity)
    {
      var epoch := FindEpochId(block);
      bonds := bonds + [Bond(id, amount, maturity, epoch)];
    }

    /** The inner loop of the sweep: one epoch's bonds. */
    method SweepEpoch(epoch: nat, lo: int, hi: int, matured: seq<Bond>, claimable: int) returns (matured': seq<Bond>,
                      claimable': int)
      requires claimable == Amounts(matured)
      ensures matured' == matured + MaturedIn(bonds, epoch, lo, hi) && claimable' == Amounts(matured')
    {
      matured', claimable' := matured, claimable;
      for j := 0 to |bonds|
        invariant matured' == matured + MaturedIn(bonds[..j], epoch, lo, hi) && claimable' == Amounts(matured')
      {
        assert bonds[..j + 1][..j] == bonds[..j];
        var bond := bonds[j];
        if bond.epoch == Some(epoch) && bond.maturity >= lo && bond.maturity <= hi {
          claimable' := claimable' + bond.amount;
          matured' := matured' + [bond];
          assert matured'[..|matured'| - 1] + [bond] == matured';
        }
      }
      assert bonds[..|bonds|] == bonds;
    }

    method HandleEpochSave(counter: nat, block: int, time: int)
      requires counter >= 1
      modifies this
      ensures Snapshot() == Settle(old(Snapshot()), counter, block, time)
    {
      if counter > 1 && counter !in epochs {
        return;
      }
      var startBlock := if counter == 1 then FIRST_START_BLOCK else epochs[counter].startBlock;
      var maturedBonds, totalBondsClaimable := [], 0;
      if counter - 1 in epochs && epochs[counter - 1].settledAt.Some? {
        var prevEpochEndTimestamp := epochs[counter - 1].settledAt.value;
        for i := 1 to counter + 1
          invariant epochs == old(epochs) && bonds == old(bonds)
          invariant maturedBonds == MaturedThrough(Snapshot(), i - 1, prevEpochEndTimestamp, time)
          invariant totalBondsClaimable == Amounts(maturedBonds)
        {
          if i in epochs {
            maturedBonds, totalBondsClaimable :=
              SweepEpoch(i, prevEpochEndTimestamp, time, maturedBonds, totalBondsClaimable);
          }
        }
      }
      epochs := epochs[counter + 1 := OpenEpoch(block + 1)];
      epochs := epochs[counter := Epoch(startBlock, Some(block), Some(time), maturedBonds, totalBondsClaimable)];
    }
  }
}
