/**
 Byte layout of the composite entity ids of the Pearl ledger
 (transaction hash, log index, slot and address segments).
 */
module PearlIds {
  import opened Collections

  type Bytes = seq<Byte>

  function Pow256(n: nat): (r: nat)
    ensures r > 0
  {
    if n == 0 then 1 else 256 * Pow256(n - 1)
  }

  /** An address is the number whose 20 base-256 digits are its bytes; Address.zero() is 0. */
  type Address = a: nat | a < 0x1_0000_0000_0000_0000_0000_0000_0000_0000_0000_0000 witness 0
  /** A transaction hash, likewise with 32 digits. */
  type TxHash =
    t: nat | t < 0x1_0000_0000_0000_0000_0000_0000_0000_0000_0000_0000_0000_0000_0000_0000_0000_0000 witness 0
  type I32 = i: int | -0x8000_0000 <= i < 0x8000_0000

  const ZERO_ADDRESS: Address := 0

  lemma Pow256Literals()
    ensures Pow256(4) == 0x1_0000_0000
    ensures Pow256(20) == 0x1_0000_0000_0000_0000_0000_0000_0000_0000_0000_0000
    ensures Pow256(32) == 0x1_0000_0000_0000_0000_0000_0000_0000_0000_0000_0000_0000_0000_0000_0000_0000_0000
  {
    assert Pow256(8) == 0x1_0000_0000_0000_0000;
    assert Pow256(16) == 0x1_0000_0000_0000_0000_0000_0000_0000_0000;
  }

  function Digits(n: nat, width: nat): (r: Bytes)
    ensures |r| == width
  {
    if width == 0 then [] else [n % 256] + Digits(n / 256, width - 1)
  }

  function Undigits(b: Bytes): (n: nat) {
    if b == [] then 0 else b[0] + 256 * Undigits(b[1..])
  }

  lemma {:induction false} DigitsRoundTrip(n: nat, width: nat)
    requires n < Pow256(width)
    ensures Undigits(Digits(n, width)) == n
  {
    if width > 0 {
      DigitsRoundTrip(n / 256, width - 1);
      assert Digits(n, width)[1..] == Digits(n / 256, width - 1);
    }
  }

  lemma {:induction false} DigitsInjective(m: nat, n: nat, width: nat)
    requires m < Pow256(width) && n < Pow256(width)
    requires Digits(m, width) == Digits(n, width)
    ensures m == n
  {
    DigitsRoundTrip(m, width);
    DigitsRoundTrip(n, width);
  }

  /** `concatI32`: the two's-complement image of the integer, least significant byte first. */
  function I32Bytes(i: I32): (r: Bytes)
    ensures |r| == 4
  {
    Digits(i % 0x1_0000_0000, 4)
  }

  lemma I32BytesInjective(i: I32, j: I32)
    requires I32Bytes(i) == I32Bytes(j)
    ensures i == j
  {
    Pow256Literals();
    DigitsInjective(i % 0x1_0000_0000, j % 0x1_0000_0000, 4);
  }

  /** UTF-8 bytes of the text safe-deployed: (14 ASCII characters). */
  const SAFE_DEPLOYED_PREFIX: Bytes :=
    [115, 97, 102, 101, 45, 100, 101, 112, 108, 111, 121, 101, 100, 58]

  /** The three ways a FundsMovement id is composed. */
  datatype RowKey =
    | EventRow(tx: TxHash, logIndex: I32)
    | EvictedRow(tx: TxHash, logIndex: I32, slot: I32)
    | SafeDeployedRow(safe: Address)

  function RowId(k: RowKey): (r: Bytes)
    ensures |r| == match k { case EventRow(_, _) => 36 case EvictedRow(_, _, _) => 40 case SafeDeployedRow(_) => 34 }
  {
    match k
    case EventRow(tx, logIndex) => Digits(tx, 32) + I32Bytes(logIndex)
    case EvictedRow(tx, logIndex, slot) => Digits(tx, 32) + I32Bytes(logIndex) + I32Bytes(slot)
    case SafeDeployedRow(safe) => SAFE_DEPLOYED_PREFIX + Digits(safe, 20)
  }

  lemma ConcatInjective(a: Bytes, b: Bytes, c: Bytes, d: Bytes)
    requires |a| == |c|
    requires a + b == c + d
    ensures a == c && b == d
  {
    assert a == (a + b)[..|a|] == (c + d)[..|a|] == c;
    assert b == (a + b)[|a|..] == (c + d)[|a|..] == d;
  }

  /** Per-event, per-evicted-slot and safe-deployed ids never coincide, within or across kinds. */
  lemma RowIdInjective(k: RowKey, l: RowKey)
    ensures RowId(k) == RowId(l) <==> k == l
  {
    if RowId(k) == RowId(l) {
      Pow256Literals();
      match k
      case EventRow(tx, logIndex) =>
        ConcatInjective(Digits(tx, 32), I32Bytes(logIndex), Digits(l.tx, 32), I32Bytes(l.logIndex));
        DigitsInjective(tx, l.tx, 32);
        I32BytesInjective(logIndex, l.logIndex);
      case EvictedRow(tx, logIndex, slot) =>
        ConcatInjective(Digits(tx, 32) + I32Bytes(logIndex), I32Bytes(slot),
                        Digits(l.tx, 32) + I32Bytes(l.logIndex), I32Bytes(l.slot));
        ConcatInjective(Digits(tx, 32), I32Bytes(logIndex), Digits(l.tx, 32), I32Bytes(l.logIndex));
        DigitsInjective(tx, l.tx, 32);
        I32BytesInjective(logIndex, l.logIndex);
        I32BytesInjective(slot, l.slot);
      case SafeDeployedRow(safe) =>
        ConcatInjective(SAFE_DEPLOYED_PREFIX, Digits(safe, 20), SAFE_DEPLOYED_PREFIX, Digits(l.safe, 20));
        DigitsInjective(safe, l.safe, 20);
    }
  }

  /** Queue slot ids (`txHash.concatI32(slot)`) have the layout of event ids. */
  function SlotId(tx: TxHash, slot: I32): (r: Bytes) {
    RowId(EventRow(tx, slot))
  }

  lemma SlotIdInjective(tx: TxHash, slot: I32, tx': TxHash, slot': I32)
    ensures SlotId(tx, slot) == SlotId(tx', slot') <==> tx == tx' && slot == slot'
  {
    RowIdInjective(EventRow(tx, slot), EventRow(tx', slot'));
  }

  /** TokenBalance ids: `safe.concat(token)`. */
  function BalanceId(safe: Address, token: Address): (r: Bytes) {
    Digits(safe, 20) + Digits(token, 20)
  }

  lemma BalanceIdInjective(safe: Address, token: Address, safe': Address, token': Address)
    ensures BalanceId(safe, token) == BalanceId(safe', token') <==> safe == safe' && token == token'
  {
    if BalanceId(safe, token) == BalanceId(safe', token') {
      Pow256Literals();
      ConcatInjective(Digits(safe, 20), Digits(token, 20), Digits(safe', 20), Digits(token', 20));
      DigitsInjective(safe, safe', 20);
      DigitsInjective(token, token', 20);
    }
  }
}
