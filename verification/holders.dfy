/** The OLAS holder ledger: supply, holder balances, holder count and the veOLAS mirror. */
module Holders {
  import opened Collections

  type Address = nat

  const ZERO: Address := 0

  datatype Transfer = Transfer(from: Address, to: Address, amount: nat)

  /** `supply` and `holderCount` belong to the OLAS Token row, `mirror` to the veOLAS one. */
  datatype State = State(supply: int, holderCount: int, holders: map<Address, int>, mirror: int)

  const EMPTY := State(0, 0, map[], 0)

  function BalanceOf(h: map<Address, int>, a: Address): int {
    if a in h then h[a] else 0
  }

  /** One holder update and the change of the holder count that goes with it. */
  function Debit(h: map<Address, int>, count: int, a: Address, amount: int): (map<Address, int>, int) {
    var before, after := BalanceOf(h, a), BalanceOf(h, a) - amount;
    (h[a := after], if before > 0 && after == 0 then count - 1 else count)
  }

  function Credit(h: map<Address, int>, count: int, a: Address, amount: int): (map<Address, int>, int) {
    var before, after := BalanceOf(h, a), BalanceOf(h, a) + amount;
    (h[a := after], if before == 0 && after > 0 then count + 1 else count)
  }

  function Step(veOlas: Address, s: State, t: Transfer): State {
    var supply := s.supply + Signed(t.from == ZERO, t.amount) - Signed(t.from != ZERO && t.to == ZERO, t.amount);
    var (h1, c1) := if t.from == ZERO then (s.holders, s.holderCount)
        else Debit(s.holders, s.holderCount, t.from, t.amount);
    var (h2, c2) := if t.to == ZERO then (h1, c1) else Credit(h1, c1, t.to, t.amount);
    State(supply, c2, h2, s.mirror + Signed(t.to == veOlas, t.amount) - Signed(t.from == veOlas, t.amount))
  }

  function Run(veOlas: Address, ts: seq<Transfer>): State {
    if ts == [] then EMPTY else Step(veOlas, Run(veOlas, ts[..|ts| - 1]), ts[|ts| - 1])
  }

  /** What an address holds on chain: everything received less everything sent. */
  function NetFlow(ts: seq<Transfer>, a: Address): int {
    if ts == [] then 0
    else
      var t := ts[|ts| - 1];
      NetFlow(ts[..|ts| - 1], a) + (if t.to == a then t.amount else 0) - (if t.from == a then t.amount else 0)
  }

  function ZeroToZero(ts: seq<Transfer>): int {
    if ts == [] then 0
    else
      var t := ts[|ts| - 1];
      ZeroToZero(ts[..|ts| - 1]) + (if t.from == 0 && t.to == 0 then t.amount else 0)
  }

  /** The addresses with a positive balance. */
  function Positive(h: map<Address, int>): set<Address> {
    set a | a in h && h[a] > 0
  }

  /** Every run tracks each holder's on-chain balance, and nothing is filed under the zero address. */
  lemma {:induction false} HolderBalanceIsNetFlow(veOlas: Address, ts: seq<Transfer>, a: Address)
    requires a != ZERO
    ensures BalanceOf(Run(veOlas, ts).holders, a) == NetFlow(ts, a)
    ensures ZERO !in Run(veOlas, ts).holders
  {
    if ts != [] {
      HolderBalanceIsNetFlow(veOlas, ts[..|ts| - 1], a);
    }
  }

  /** Token(veOLAS).balance is the veOLAS holder's own balance, self-transfers included. */
  lemma {:induction false} MirrorIsVeOlasBalance(veOlas: Address, ts: seq<Transfer>)
    requires veOlas != ZERO
    ensures Run(veOlas, ts).mirror == BalanceOf(Run(veOlas, ts).holders, veOlas)
  {
    if ts != [] {
      MirrorIsVeOlasBalance(veOlas, ts[..|ts| - 1]);
    }
  }

  lemma CreditTotal(h: map<Address, int>, count: int, a: Address, amount: int)
    ensures Total(Credit(h, count, a, amount).0) == Total(h) + amount
    ensures Total(Debit(h, count, a, amount).0) == Total(h) - amount
  {
    TotalUpdate(h, a, BalanceOf(h, a) + amount);
    TotalUpdate(h, a, BalanceOf(h, a) - amount);
  }

  lemma StepTotal(veOlas: Address, s: State, t: Transfer)
    ensures Total(Step(veOlas, s, t).holders)
        == Total(s.holders) + Signed(t.to != ZERO, t.amount) - Signed(t.from != ZERO, t.amount)
  {
    var (h1, c1) := if t.from == ZERO then (s.holders, s.holderCount)
        else Debit(s.holders, s.holderCount, t.from, t.amount);
    if t.from != ZERO {
      CreditTotal(s.holders, s.holderCount, t.from, t.amount);
    }
    if t.to != ZERO {
      CreditTotal(h1, c1, t.to, t.amount);
    }
  }

  /** For every history the recorded supply exceeds the sum of the balances by the zero-to-zero transfers. */
  lemma {:induction false} SupplyIsSumOfBalances(veOlas: Address, ts: seq<Transfer>)
    ensures Run(veOlas, ts).supply == Total(Run(veOlas, ts).holders) + ZeroToZero(ts)
  {
    if ts != [] {
      SupplyIsSumOfBalances(veOlas, ts[..|ts| - 1]);
      StepTotal(veOlas, Run(veOlas, ts[..|ts| - 1]), ts[|ts| - 1]);
    }
  }

  /** ... so it equals that sum exactly when nothing was sent from zero to zero. */
  lemma SupplyExactIff(veOlas: Address, ts: seq<Transfer>)
    ensures Run(veOlas, ts).supply == Total(Run(veOlas, ts).holders)
      <==> forall i :: 0 <= i < |ts| && ts[i].from == ZERO && ts[i].to == ZERO ==> ts[i].amount == 0
  {
    SupplyIsSumOfBalances(veOlas, ts);
    NoZeroToZero(ts);
  }

  lemma {:induction false} NoZeroToZero(ts: seq<Transfer>)
    ensures ZeroToZero(ts) >= 0
    ensures ZeroToZero(ts) == 0
        <==> forall i :: 0 <= i < |ts| && ts[i].from == ZERO && ts[i].to == ZERO ==> ts[i].amount == 0
  {
    if ts != [] {
      var init := ts[..|ts| - 1];
      NoZeroToZero(init);
      assert forall i :: 0 <= i < |init| ==> init[i] == ts[i];
    }
  }

  // ----- the holder count --------------------------------------------------

  /** The token contract lets nobody but the zero address send more than it holds. */
  ghost predicate Funded(ts: seq<Transfer>) {
    forall i :: 0 <= i < |ts| && ts[i].from != ZERO ==> NetFlow(ts[..i], ts[i].from) >= ts[i].amount
  }

  ghost predicate CountsHolders(h: map<Address, int>, count: int) {
    (forall a :: a in h ==> h[a] >= 0) && count == |Positive(h)|
  }

  lemma DebitCounts(h: map<Address, int>, count: int, a: Address, amount: nat)
    requires CountsHolders(h, count) && BalanceOf(h, a) >= amount
    ensures CountsHolders(Debit(h, count, a, amount).0, Debit(h, count, a, amount).1)
  {
    var h' := Debit(h, count, a, amount).0;
    if BalanceOf(h', a) > 0 {
      assert Positive(h') == Positive(h);
    } else {
      assert Positive(h') == Positive(h) - {a};
    }
  }

  lemma CreditCounts(h: map<Address, int>, count: int, a: Address, amount: nat)
    requires CountsHolders(h, count)
    ensures CountsHolders(Credit(h, count, a, amount).0, Credit(h, count, a, amount).1)
  {
    var h' := Credit(h, count, a, amount).0;
    if BalanceOf(h', a) > 0 {
      assert Positive(h') == Positive(h) + {a};
    } else {
      assert Positive(h') == Positive(h);
    }
  }

  /** Over funded histories no balance is negative and holderCount counts the positive ones. */
  lemma {:induction false} HolderCountIsExact(veOlas: Address, ts: seq<Transfer>)
    requires Funded(ts)
    ensures CountsHolders(Run(veOlas, ts).holders, Run(veOlas, ts).holderCount)
  {
    if ts != [] {
      var init, t := ts[..|ts| - 1], ts[|ts| - 1];
      assert forall i :: 0 <= i < |init| ==> init[i] == ts[i] && init[..i] == ts[..i];
      HolderCountIsExact(veOlas, init);
      var s := Run(veOlas, init);
      var (h1, c1) := if t.from == ZERO then (s.holders, s.holderCount)
          else Debit(s.holders, s.holderCount, t.from, t.amount);
      if t.from != ZERO {
        HolderBalanceIsNetFlow(veOlas, init, t.from);
        DebitCounts(s.holders, s.holderCount, t.from, t.amount);
      }
      if t.to != ZERO {
        CreditCounts(h1, c1, t.to, t.amount);
      }
    }
  }

  // ----- the handler -------------------------------------------------------

  class HolderStore {
    const veOlas: Address
    var supply: int
    var holderCount: int
    var holders: map<Address, int>
    var mirror: int

    ghost function Abs(): State
      reads this
    {
      State(supply, holderCount, holders, mirror)
    }

    constructor (veOlas: Address)
      ensures this.veOlas == veOlas && Abs() == EMPTY
    {
      this.veOlas := veOlas;
      supply, holderCount, holders, mirror := 0, 0, map[], 0;
    }

    method HandleTransferBalances(from: Address, to: Address, amount: nat)
      modifies this
      ensures Abs() == Step(veOlas, old(Abs()), Transfer(from, to, amount)).(mirror := old(mirror))
    {
      if from == ZERO {
        supply := supply + amount;
      } else if to == ZERO {
        supply := supply - amount;
      }
      if from != ZERO {
        var oldBalance := if from in holders then holders[from] else 0;
        var newBalance := oldBalance - amount;
        holders := holders[from := newBalance];
        if oldBalance > 0 && newBalance == 0 {
          holderCount := holderCount - 1;
        }
      }
      if to != ZERO {
        var oldBalance := if to in holders then holders[to] else 0;
        var newBalance := oldBalance + amount;
        holders := holders[to := newBalance];
        if oldBalance == 0 && newBalance > 0 {
          holderCount := holderCount + 1;
        }
      }
    }

    /** The balance part of `handleTransfer`. */
    method HandleTransfer(from: Address, to: Address, amount: nat)
      modifies this
      ensures Abs() == Step(veOlas, old(Abs()), Transfer(from, to, amount))
    {
      HandleTransferBalances(from, to, amount);
      if to == veOlas || from == veOlas {
        if to == veOlas {
          mirror := mirror + amount;
        }
        if from == veOlas {
          mirror := mirror - amount;
        }
      }
    }
  }
}
