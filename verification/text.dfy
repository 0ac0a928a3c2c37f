/** The text forms the swap buffer stores: delimited lists, numbers, decimals and hex ids. */
module Text {
  import opened Collections

  // ----- split and join ----------------------------------------------------

  /** JavaScript `split` on a one-character separator. */
  function Split(s: string, sep: char): (r: seq<string>)
    ensures |r| >= 1
  {
    if s == "" then [""]
    else
      var rest := Split(s[1..], sep);
      if s[0] == sep then [""] + rest else [[s[0]] + rest[0]] + rest[1..]
  }

  function Join(parts: seq<string>, sep: char): string {
    if parts == [] then ""
    else if |parts| == 1 then parts[0]
    else parts[0] + [sep] + Join(parts[1..], sep)
  }

  predicate Lacks(s: string, sep: char) {
    sep !in s
  }

  lemma {:induction false} SplitWhole(s: string, sep: char)
    requires Lacks(s, sep)
    ensures Split(s, sep) == [s]
  {
    if s != "" {
      SplitWhole(s[1..], sep);
      assert [s[0]] + s[1..] == s;
    }
  }

  lemma {:induction false} SplitFirst(s: string, rest: string, sep: char)
    requires Lacks(s, sep)
    ensures Split(s + [sep] + rest, sep) == [s] + Split(rest, sep)
  {
    var t := s + [sep] + rest;
    if s == "" {
      assert t[1..] == rest;
    } else {
      SplitFirst(s[1..], rest, sep);
      assert t[1..] == s[1..] + [sep] + rest;
      assert [s[0]] + s[1..] == s;
    }
  }

  /** Splitting a joined list gives back exactly the entries that were joined. */
  lemma {:induction false} SplitJoin(parts: seq<string>, sep: char)
    requires parts != [] && forall p :: p in parts ==> Lacks(p, sep)
    ensures Split(Join(parts, sep), sep) == parts
  {
    if |parts| == 1 {
      SplitWhole(parts[0], sep);
    } else {
      SplitJoin(parts[1..], sep);
      SplitFirst(parts[0], Join(parts[1..], sep), sep);
    }
  }

  lemma {:induction false} JoinAppend(parts: seq<string>, last: string, sep: char)
    requires parts != []
    ensures Join(parts + [last], sep) == Join(parts, sep) + [sep] + last
  {
    if |parts| == 1 {
      assert (parts + [last])[1..] == [last];
    } else {
      JoinAppend(parts[1..], last, sep);
      assert (parts + [last])[1..] == parts[1..] + [last];
      assert parts[0] + [sep] + (Join(parts[1..], sep) + [sep] + last)
          == parts[0] + [sep] + Join(parts[1..], sep) + [sep] + last;
    }
  }

  lemma {:induction false} JoinEmpty(parts: seq<string>, sep: char)
    requires forall p :: p in parts ==> p != ""
    ensures Join(parts, sep) == "" <==> parts == []
  {
    if parts != [] {
      assert parts[0] in parts;
      assert |parts| > 1 ==> Join(parts, sep)[|parts[0]|] == sep;
    }
  }

  // ----- natural numbers ---------------------------------------------------

  predicate IsDigits(s: string) {
    forall i :: 0 <= i < |s| ==> '0' <= s[i] <= '9'
  }

  function DigitChar(d: nat): (c: char)
    requires d < 10
    ensures '0' <= c <= '9'
  {
    '0' + d as char
  }

  function DigitValue(c: char): int {
    c as int - '0' as int
  }

  function NatText(n: nat): (s: string)
    ensures s != "" && IsDigits(s)
  {
    if n < 10 then [DigitChar(n)] else NatText(n / 10) + [DigitChar(n % 10)]
  }

  function ParseNat(s: string): int {
    if s == "" then 0 else 10 * ParseNat(s[..|s| - 1]) + DigitValue(s[|s| - 1])
  }

  lemma {:induction false} NatRoundTrip(n: nat)
    ensures ParseNat(NatText(n)) == n
  {
    if n < 10 {
      assert NatText(n)[..0] == "";
    } else {
      NatRoundTrip(n / 10);
      assert NatText(n)[..|NatText(n)| - 1] == NatText(n / 10);
    }
  }

  function Zeros(n: nat): (s: string)
    ensures |s| == n && IsDigits(s)
  {
    seq(n, _ => '0')
  }

  lemma {:induction false} LeadingZeros(n: nat, s: string)
    ensures ParseNat(Zeros(n) + s) == ParseNat(s)
  {
    if s == "" {
      assert Zeros(n) + s == Zeros(n);
      if n > 0 {
        LeadingZeros(n - 1, "");
        assert Zeros(n)[..n - 1] == Zeros(n - 1) + "";
      }
    } else {
      LeadingZeros(n, s[..|s| - 1]);
      assert (Zeros(n) + s)[..n + |s| - 1] == Zeros(n) + s[..|s| - 1];
    }
  }

  // ----- decimals ----------------------------------------------------------

  /** The decimal number units / 10^scale. */
  datatype Decimal = Decimal(units: int, scale: nat)

  function Shifted(units: int, scale: nat): real {
    if scale == 0 then units as real else Shifted(units, scale - 1) / 10.0
  }

  function Value(d: Decimal): real {
    Shifted(d.units, d.scale)
  }

  function PowerOfTen(n: nat): int {
    if n == 0 then 1 else 10 * PowerOfTen(n - 1)
  }

  lemma ShiftedOnce(units: int, scale: nat)
    ensures Shifted(units, scale + 1) * 10.0 == Shifted(units, scale)
  {
  }

  /** The value of a decimal is its units over that power of ten. */
  lemma {:induction false} ValueScaled(d: Decimal)
    ensures Value(d) * PowerOfTen(d.scale) as real == d.units as real
    decreases d.scale
  {
    if d.scale > 0 {
      var up := Decimal(d.units, d.scale - 1);
      ValueScaled(up);
      ShiftedOnce(d.units, d.scale - 1);
      var p := PowerOfTen(up.scale) as real;
      assert PowerOfTen(d.scale) as real == 10.0 * p;
      assert Value(d) * (10.0 * p) == (Value(d) * 10.0) * p;
    }
  }

  /** At least `width` digits. */
  function Padded(n: nat, width: nat): (s: string)
    ensures |s| >= width && s != "" && IsDigits(s)
  {
    if |NatText(n)| >= width then NatText(n) else Zeros(width - |NatText(n)|) + NatText(n)
  }

  /** The last `scale` digits set off by a point. */
  function Pointed(digits: string, scale: nat): string
    requires scale < |digits|
  {
    if scale == 0 then digits else digits[..|digits| - scale] + "." + digits[|digits| - scale..]
  }

  function UnsignedText(n: nat, scale: nat): string {
    Pointed(Padded(n, scale + 1), scale)
  }

  /** Plain decimal notation without exponent. */
  function DecimalText(d: Decimal): string {
    if d.units < 0 then "-" + UnsignedText(0 - d.units, d.scale) else UnsignedText(d.units, d.scale)
  }

  function ParseUnsigned(s: string): Decimal {
    var parts := Split(s, '.');
    if |parts| == 1 then Decimal(ParseNat(parts[0]), 0) else Decimal(ParseNat(parts[0] + parts[1]), |parts[1]|)
  }

  function ParseDecimal(s: string): Decimal {
    if s != "" && s[0] == '-' then
      var d := ParseUnsigned(s[1..]);
      Decimal(0 - d.units, d.scale)
    else ParseUnsigned(s)
  }

  lemma PaddedRoundTrip(n: nat, width: nat)
    ensures ParseNat(Padded(n, width)) == n
  {
    NatRoundTrip(n);
    if |NatText(n)| < width {
      LeadingZeros(width - |NatText(n)|, NatText(n));
    }
  }

  lemma DigitsLack(s: string, sep: char)
    requires IsDigits(s) && !('0' <= sep <= '9')
    ensures Lacks(s, sep)
  {
  }

  /** The integer and the fractional digits are the two parts around the point. */
  lemma PointSplits(whole: string, fraction: string)
    requires IsDigits(whole) && IsDigits(fraction)
    ensures Split(whole + "." + fraction, '.') == [whole, fraction]
  {
    DigitsLack(whole, '.');
    DigitsLack(fraction, '.');
    SplitFirst(whole, fraction, '.');
    SplitWhole(fraction, '.');
    assert whole + "." + fraction == whole + ['.'] + fraction;
  }

  lemma DigitsRoundTrip(digits: string, scale: nat)
    requires IsDigits(digits) && scale < |digits|
    ensures var text := Pointed(digits, scale);
            ParseUnsigned(text) == Decimal(ParseNat(digits), scale) && text != "" && text[0] == digits[0]
  {
    if scale == 0 {
      DigitsLack(digits, '.');
      SplitWhole(digits, '.');
    } else {
      var cut := |digits| - scale;
      PointSplits(digits[..cut], digits[cut..]);
      assert digits[..cut] + digits[cut..] == digits;
    }
  }

  lemma UnsignedRoundTrip(n: nat, scale: nat)
    ensures ParseUnsigned(UnsignedText(n, scale)) == Decimal(n, scale)
    ensures UnsignedText(n, scale) != "" && UnsignedText(n, scale)[0] != '-'
  {
    PaddedRoundTrip(n, scale + 1);
    DigitsRoundTrip(Padded(n, scale + 1), scale);
  }

  lemma SignRoundTrip(t: string, n: nat, scale: nat)
    requires ParseUnsigned(t) == Decimal(n, scale) && t != "" && t[0] != '-'
    ensures ParseDecimal(t) == Decimal(n, scale) && ParseDecimal("-" + t) == Decimal(0 - n, scale)
  {
    assert ("-" + t)[0] == '-' && ("-" + t)[1..] == t;
  }

  /** Printing and parsing a decimal gives the same number at the same scale. */
  lemma DecimalRoundTrip(d: Decimal)
    ensures ParseDecimal(DecimalText(d)) == d
  {
    var n := if d.units < 0 then 0 - d.units else d.units;
    UnsignedRoundTrip(n, d.scale);
    SignRoundTrip(UnsignedText(n, d.scale), n, d.scale);
  }

  lemma UnsignedLacks(n: nat, scale: nat, sep: char)
    requires sep == ',' || sep == '|'
    ensures Lacks(UnsignedText(n, scale), sep)
  {
    DigitsLack(Padded(n, scale + 1), sep);
  }

  lemma DecimalLacks(d: Decimal, sep: char)
    requires sep == ',' || sep == '|'
    ensures Lacks(DecimalText(d), sep)
  {
    UnsignedLacks(if d.units < 0 then 0 - d.units else d.units, d.scale, sep);
  }

  // ----- hex ids -----------------------------------------------------------

  function HexChar(d: nat): (c: char)
    requires d < 16
    ensures '0' <= c <= '9' || 'a' <= c <= 'f'
  {
    if d < 10 then '0' + d as char else 'a' + (d - 10) as char
  }

  function HexValue(c: char): int {
    if '0' <= c <= '9' then c as int - '0' as int else c as int - 'a' as int + 10
  }

  function HexDigits(b: seq<Byte>): (s: string)
    ensures |s| == 2 * |b|
  {
    if b == [] then "" else [HexChar(b[0] / 16), HexChar(b[0] % 16)] + HexDigits(b[1..])
  }

  /** `toHexString`. */
  function HexText(b: seq<Byte>): string {
    "0x" + HexDigits(b)
  }

  function ParseHexDigits(s: string): seq<Byte> {
    if |s| < 2 then [] else [(16 * HexValue(s[0]) + HexValue(s[1])) % 256] + ParseHexDigits(s[2..])
  }

  /** `fromHexString` of a text with the 0x prefix. */
  function ParseHex(s: string): seq<Byte> {
    if |s| < 2 then [] else ParseHexDigits(s[2..])
  }

  lemma HexPair(b: Byte)
    ensures (16 * HexValue(HexChar(b / 16)) + HexValue(HexChar(b % 16))) % 256 == b
  {
    assert HexValue(HexChar(b / 16)) == b / 16 && HexValue(HexChar(b % 16)) == b % 16;
  }

  lemma {:induction false} HexDigitsRoundTrip(b: seq<Byte>)
    ensures ParseHexDigits(HexDigits(b)) == b
  {
    if b != [] {
      HexDigitsRoundTrip(b[1..]);
      HexPair(b[0]);
      assert HexDigits(b)[2..] == HexDigits(b[1..]);
      assert [b[0]] + b[1..] == b;
    }
  }

  lemma HexRoundTrip(b: seq<Byte>)
    ensures ParseHex(HexText(b)) == b
  {
    HexDigitsRoundTrip(b);
    assert HexText(b)[2..] == HexDigits(b);
  }

  lemma {:induction false} HexLacks(b: seq<Byte>, sep: char)
    requires sep == ',' || sep == '|'
    ensures Lacks(HexDigits(b), sep) && Lacks(HexText(b), sep)
  {
    if b != [] {
      HexLacks(b[1..], sep);
    }
  }
}
