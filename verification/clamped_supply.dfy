/** A counter that is clamped at zero: the LP supply of partially indexed pools and bridged holdings. */
module ClampedSupply {
  import Holders

  const ZERO := 0

  /** What one transfer does to a clamped counter. */
  datatype Move = In(amount: nat) | Out(amount: nat) | Neither

  /** `handleBPTTransfer`: a transfer from the zero address mints, even to the zero address. */
  function SupplyMove(from: nat, to: nat, amount: nat): Move {
    if from == ZERO then In(amount) else if to == ZERO then Out(amount) else Neither
  }

  /** `handleBridgedLPTransfer`: a transfer to the treasury comes in, even from the treasury. */
  function HoldingMove(treasury: nat, from: nat, to: nat, amount: nat): Move {
    if to == treasury then In(amount) else if from == treasury then Out(amount) else Neither
  }

  /** The stored balance with its two running totals. */
  datatype Counter = Counter(balance: int, totalIn: int, totalOut: int)

  function Step(c: Counter, m: Move): Counter {
    match m
    case In(amount) => Counter(c.balance + amount, c.totalIn + amount, c.totalOut)
    case Out(amount) => Counter(if amount > c.balance then 0 else c.balance - amount, c.totalIn, c.totalOut + amount)
    case Neither => c
  }

  function Run(ms: seq<Move>): Counter {
    if ms == [] then Counter(0, 0, 0) else Step(Run(ms[..|ms| - 1]), ms[|ms| - 1])
  }

  function SumIn(ms: seq<Move>): int {
    if ms == [] then 0 else SumIn(ms[..|ms| - 1]) + (if ms[|ms| - 1].In? then ms[|ms| - 1].amount else 0)
  }

  function SumOut(ms: seq<Move>): int {
    if ms == [] then 0 else SumOut(ms[..|ms| - 1]) + (if ms[|ms| - 1].Out? then ms[|ms| - 1].amount else 0)
  }

  /** How far the outflow ran ahead of the inflow. */
  function Shortfall(ms: seq<Move>): int {
    SumOut(ms) - SumIn(ms)
  }

  function Max(x: int, y: int): int {
    if x > y then x else y
  }

  /** The largest shortfall of any prefix; the empty one has none. */
  function WorstShortfall(ms: seq<Move>): int {
    if ms == [] then 0 else Max(WorstShortfall(ms[..|ms| - 1]), Shortfall(ms))
  }

  lemma {:induction false} WorstIsReached(ms: seq<Move>)
    ensures exists k :: 0 <= k <= |ms| && Shortfall(ms[..k]) == WorstShortfall(ms)
    ensures forall k :: 0 <= k <= |ms| ==> Shortfall(ms[..k]) <= WorstShortfall(ms)
  {
    if ms == [] {
      assert Shortfall(ms[..0]) == 0;
    } else {
      var init := ms[..|ms| - 1];
      WorstIsReached(init);
      assert forall k :: 0 <= k <= |init| ==> init[..k] == ms[..k];
      assert ms[..|ms|] == ms;
      var k :| 0 <= k <= |init| && Shortfall(init[..k]) == WorstShortfall(init);
      if Shortfall(ms) <= WorstShortfall(init) {
        assert Shortfall(ms[..k]) == WorstShortfall(ms);
      } else {
        assert Shortfall(ms[..|ms|]) == WorstShortfall(ms);
      }
    }
  }

  /**
   After every run the clamped balance is inflow less outflow plus the largest shortfall any prefix
   reached, so it is never negative; the two totals are the plain sums.
   */
  lemma {:induction false} ClampIsReflection(ms: seq<Move>)
    ensures Run(ms) == Counter(SumIn(ms) - SumOut(ms) + WorstShortfall(ms), SumIn(ms), SumOut(ms))
    ensures Run(ms).balance >= 0 && WorstShortfall(ms) >= 0
  {
    if ms != [] {
      ClampIsReflection(ms[..|ms| - 1]);
    }
  }

  /** The balance is exact if and only if no prefix sent out more than had come in. */
  lemma ExactIffNeverShort(ms: seq<Move>)
    ensures Run(ms).balance == SumIn(ms) - SumOut(ms)
        <==> forall k :: 0 <= k <= |ms| ==> SumOut(ms[..k]) <= SumIn(ms[..k])
  {
    ClampIsReflection(ms);
    WorstIsReached(ms);
    var k :| 0 <= k <= |ms| && Shortfall(ms[..k]) == WorstShortfall(ms);
    if forall j :: 0 <= j <= |ms| ==> SumOut(ms[..j]) <= SumIn(ms[..j]) {
      assert SumOut(ms[..k]) <= SumIn(ms[..k]);
    } else {
      forall j | 0 <= j <= |ms| && SumOut(ms[..j]) > SumIn(ms[..j]) ensures WorstShortfall(ms) > 0 {
        assert Shortfall(ms[..j]) <= WorstShortfall(ms);
      }
    }
  }

  // ----- the counters of transfers -----------------------------------------

  function SupplyMoves(ts: seq<Holders.Transfer>): seq<Move> {
    if ts == [] then []
    else SupplyMoves(ts[..|ts| - 1]) + [SupplyMove(ts[|ts| - 1].from, ts[|ts| - 1].to, ts[|ts| - 1].amount)]
  }

  function HoldingMoves(treasury: nat, ts: seq<Holders.Transfer>): seq<Move> {
    if ts == [] then []
    else
      HoldingMoves(treasury, ts[..|ts| - 1])
      + [HoldingMove(treasury, ts[|ts| - 1].from, ts[|ts| - 1].to, ts[|ts| - 1].amount)]
  }

  function Received(ts: seq<Holders.Transfer>, a: nat): int {
    if ts == [] then 0 else Received(ts[..|ts| - 1], a) + (if ts[|ts| - 1].to == a then ts[|ts| - 1].amount else 0)
  }

  function Sent(ts: seq<Holders.Transfer>, a: nat): int {
    if ts == [] then 0 else Sent(ts[..|ts| - 1], a) + (if ts[|ts| - 1].from == a then ts[|ts| - 1].amount else 0)
  }

  /** What an address sent to itself. */
  function SelfSent(ts: seq<Holders.Transfer>, a: nat): int {
    if ts == [] then 0
    else
      var t := ts[|ts| - 1];
      SelfSent(ts[..|ts| - 1], a) + (if t.from == a && t.to == a then t.amount else 0)
  }

  lemma {:induction false} ReceivedLessSent(ts: seq<Holders.Transfer>, a: nat)
    ensures Received(ts, a) - Sent(ts, a) == Holders.NetFlow(ts, a)
  {
    if ts != [] {
      ReceivedLessSent(ts[..|ts| - 1], a);
    }
  }

  lemma SumsAppend(ms: seq<Move>, m: Move)
    ensures SumIn(ms + [m]) == SumIn(ms) + (if m.In? then m.amount else 0)
    ensures SumOut(ms + [m]) == SumOut(ms) + (if m.Out? then m.amount else 0)
  {
    assert (ms + [m])[..|ms|] == ms;
  }

  /** Everything the zero address sends is minted and what others send to it is burned; the supply is their net flow. */
  lemma {:induction false} SupplyCounts(ts: seq<Holders.Transfer>)
    ensures var c := Run(SupplyMoves(ts));
            && c.totalIn == Sent(ts, 0) && c.totalOut == Received(ts, 0) - SelfSent(ts, 0)
            && c.totalIn - c.totalOut == SelfSent(ts, 0) - Holders.NetFlow(ts, 0)
  {
    ClampIsReflection(SupplyMoves(ts));
    ReceivedLessSent(ts, 0);
    if ts != [] {
      var init, t := ts[..|ts| - 1], ts[|ts| - 1];
      SupplyCounts(init);
      ClampIsReflection(SupplyMoves(init));
      SumsAppend(SupplyMoves(init), SupplyMove(t.from, t.to, t.amount));
    }
  }

  /** Everything sent to the treasury comes in and what it sends to others goes out; the rest is its net flow. */
  lemma {:induction false} HoldingCounts(treasury: nat, ts: seq<Holders.Transfer>)
    ensures var c := Run(HoldingMoves(treasury, ts));
            && c.totalIn == Received(ts, treasury) && c.totalOut == Sent(ts, treasury) - SelfSent(ts, treasury)
            && c.totalIn - c.totalOut == SelfSent(ts, treasury) + Holders.NetFlow(ts, treasury)
  {
    ClampIsReflection(HoldingMoves(treasury, ts));
    ReceivedLessSent(ts, treasury);
    if ts != [] {
      var init, t := ts[..|ts| - 1], ts[|ts| - 1];
      HoldingCounts(treasury, init);
      ClampIsReflection(HoldingMoves(treasury, init));
      SumsAppend(HoldingMoves(treasury, init), HoldingMove(treasury, t.from, t.to, t.amount));
    }
  }

  /** PoolMetrics of one pool, or the BridgedPOLHolding of one token. */
  class CounterEntity {
    var balance: int
    var totalIn: int
    var totalOut: int

    ghost function Abs(): Counter
      reads this
    {
      Counter(balance, totalIn, totalOut)
    }

    constructor ()
      ensures Abs() == Counter(0, 0, 0)
    {
      balance, totalIn, totalOut := 0, 0, 0;
    }

    method TakeOut(value: nat)
      modifies this
      ensures Abs() == Step(old(Abs()), Out(value))
    {
      if value > balance {
        balance := balance - balance;
      } else {
        balance := balance - value;
      }
      totalOut := totalOut + value;
    }

    method HandleBPTTransfer(from: nat, to: nat, value: nat)
      modifies this
      ensures Abs() == Step(old(Abs()), SupplyMove(from, to, value))
    {
      if from == ZERO {
        balance := balance + value;
        totalIn := totalIn + value;
      } else if to == ZERO {
        TakeOut(value);
      }
    }

    method HandleBridgedLPTransfer(treasury: nat, from: nat, to: nat, value: nat)
      modifies this
      ensures Abs() == Step(old(Abs()), HoldingMove(treasury, from, to, value))
    {
      if to == treasury {
        balance := balance + value;
        totalIn := totalIn + value;
      } else if from == treasury {
        TakeOut(value);
      }
    }
  }
}
