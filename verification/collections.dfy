/** Option values, duplicate-free sequences and finite sums shared by every component. */
module Collections {

  datatype Option<+T> = None | Some(value: T)

  type Byte = b: int | 0 <= b < 256

  /** The amount if the condition holds. */
  function Signed(b: bool, amount: int): int {
    if b then amount else 0
  }

  const DAY_SECONDS := 86400

  /** The start of the UTC day of a time. */
  function DayStart(time: nat): nat {
    time / DAY_SECONDS * DAY_SECONDS
  }

  lemma DayStartBounds(time: nat)
    ensures DayStart(time) % 86400 == 0 && DayStart(time) <= time < DayStart(time) + 86400
  {
  }

  /** A UTC day starts at a multiple of 86400 seconds and lasts that long. */
  lemma DayStartIs(time: nat, day: nat)
    requires day % 86400 == 0
    ensures DayStart(time) == day <==> day <= time < day + 86400
  {
    DayStartBounds(time);
  }

  /** No value occurs twice. */
  ghost predicate NoDup<T>(s: seq<T>) {
    forall i, j :: 0 <= i < j < |s| ==> s[i] != s[j]
  }

  ghost function Elems<T>(s: seq<T>): set<T> {
    set x | x in s
  }

  /** The list with `x` appended unless it is there already. */
  function AddOnce<T(==)>(s: seq<T>, x: T): seq<T> {
    if x in s then s else s + [x]
  }

  lemma AddOnceAdds<T>(s: seq<T>, x: T)
    ensures s <= AddOnce(s, x) && Elems(AddOnce(s, x)) == Elems(s) + {x}
    ensures NoDup(s) ==> NoDup(AddOnce(s, x))
  {
  }

  /** Every element of `t` added once, in order, after the elements of `s`. */
  function Merge<T(==)>(s: seq<T>, t: seq<T>): seq<T> {
    if t == [] then s else AddOnce(Merge(s, t[..|t| - 1]), t[|t| - 1])
  }

  /** Merging unites the elements and keeps a list duplicate-free. */
  lemma {:induction false} MergeUnites<T>(s: seq<T>, t: seq<T>)
    ensures s <= Merge(s, t)
    ensures Elems(Merge(s, t)) == Elems(s) + Elems(t)
    ensures NoDup(s) ==> NoDup(Merge(s, t))
  {
    if t != [] {
      var n := |t| - 1;
      MergeUnites(s, t[..n]);
      AddOnceAdds(Merge(s, t[..n]), t[n]);
      assert t == t[..n] + [t[n]];
    }
  }

  function Sum(s: seq<int>): (r: int) {
    if s == [] then 0 else Sum(s[..|s| - 1]) + s[|s| - 1]
  }

  lemma {:induction false} SumAppend(s: seq<int>, t: seq<int>)
    ensures Sum(s + t) == Sum(s) + Sum(t)
  {
    if t == [] {
      assert s + t == s;
    } else {
      var n := |t| - 1;
      SumAppend(s, t[..n]);
      assert (s + t)[..|s + t| - 1] == s + t[..n];
    }
  }

  lemma SumOne(x: int)
    ensures Sum([x]) == x
  {
    assert [x][..0] == [];
  }

  lemma SumMiddle(front: seq<int>, x: int, back: seq<int>)
    ensures Sum(front + ([x] + back)) == x + Sum(front + back)
  {
    SumAppend(front, [x] + back);
    SumAppend([x], back);
    SumAppend(front, back);
    SumOne(x);
  }

  lemma SumWithout(t: seq<int>, k: nat)
    requires k < |t|
    ensures Sum(t) == t[k] + Sum(t[..k] + t[k + 1..])
  {
    assert t == t[..k] + ([t[k]] + t[k + 1..]);
    SumMiddle(t[..k], t[k], t[k + 1..]);
  }

  lemma MultisetWithout<T>(t: seq<T>, k: nat)
    requires k < |t|
    ensures multiset(t[..k] + t[k + 1..]) == multiset(t) - multiset{t[k]}
  {
    assert t == t[..k] + [t[k]] + t[k + 1..];
  }

  /** A sum does not depend on the order of its terms. */
  lemma {:induction false} SumOfMultiset(s: seq<int>, t: seq<int>)
    requires multiset(s) == multiset(t)
    ensures Sum(s) == Sum(t)
    decreases |s|
  {
    assert |s| == |multiset(s)| == |multiset(t)| == |t|;
    if s != [] {
      var n := |s| - 1;
      assert s[n] in multiset(t);
      var k :| 0 <= k < |t| && t[k] == s[n];
      MultisetWithout(s, n);
      MultisetWithout(t, k);
      assert s[..n] + s[n + 1..] == s[..n];
      SumOfMultiset(s[..n], t[..k] + t[k + 1..]);
      SumWithout(t, k);
    }
  }

  /** A table with one entry per listed key. */
  function Tabulate<K, V>(list: seq<K>, f: K -> V): map<K, V> {
    if list == [] then map[] else Tabulate(list[..|list| - 1], f)[list[|list| - 1] := f(list[|list| - 1])]
  }

  lemma {:induction false} TabulateAt<K, V>(list: seq<K>, f: K -> V, k: K)
    requires k in list
    ensures k in Tabulate(list, f) && Tabulate(list, f)[k] == f(k)
  {
    if list[|list| - 1] != k {
      TabulateAt(list[..|list| - 1], f, k);
    }
  }

  lemma TabulateNext<K, V>(list: seq<K>, f: K -> V, i: nat)
    requires i < |list|
    ensures Tabulate(list[..i + 1], f) == Tabulate(list[..i], f)[list[i] := f(list[i])]
  {
    assert list[..i + 1][..i] == list[..i];
  }

  /** The sum of one figure over the rows of a finite table. */
  ghost function TotalBy<K, V>(m: map<K, V>, figure: V -> int): (r: int) {
    if m == map[] then 0
    else
      var k :| k in m;
      figure(m[k]) + TotalBy(m - {k}, figure)
  }

  lemma {:induction false} TotalByRemove<K, V>(m: map<K, V>, figure: V -> int, k: K)
    requires k in m
    ensures TotalBy(m, figure) == figure(m[k]) + TotalBy(m - {k}, figure)
    decreases |m|
  {
    var j :| j in m && TotalBy(m, figure) == figure(m[j]) + TotalBy(m - {j}, figure);
    if j != k {
      TotalByRemove(m - {j}, figure, k);
      TotalByRemove(m - {k}, figure, j);
      assert m - {j} - {k} == m - {k} - {j};
    }
  }

  /** Writing one row moves the sum by the change of that row's figure. */
  lemma {:induction false} TotalByUpdate<K, V>(m: map<K, V>, figure: V -> int, k: K, v: V)
    ensures TotalBy(m[k := v], figure) == TotalBy(m, figure) - (if k in m then figure(m[k]) else 0) + figure(v)
  {
    var m' := m[k := v];
    TotalByRemove(m', figure, k);
    if k in m {
      TotalByRemove(m, figure, k);
      assert m' - {k} == m - {k};
    } else {
      assert m' - {k} == m;
    }
  }

  function Same(x: int): int { x }

  /** The sum of a finite table's values. */
  ghost function Total<K>(m: map<K, int>): int {
    TotalBy(m, Same)
  }

  lemma TotalRemove<K>(m: map<K, int>, k: K)
    requires k in m
    ensures Total(m) == m[k] + Total(m - {k})
  {
    TotalByRemove(m, Same, k);
  }

  lemma TotalUpdate<K>(m: map<K, int>, k: K, v: int)
    ensures Total(m[k := v]) == Total(m) - (if k in m then m[k] else 0) + v
  {
    TotalByUpdate(m, Same, k, v);
  }
}
