/** Medians of daily values, the sliding window over seven days and its mean. */
module Medians {

  // ----- median ------------------------------------------------------------

  function Insert(x: real, s: seq<real>): seq<real> {
    if s == [] || x <= s[0] then [x] + s else [s[0]] + Insert(x, s[1..])
  }

  /** The values in ascending order. */
  function Sorted(s: seq<real>): (r: seq<real>)
    ensures |r| == |s|
  {
    if s == [] then [] else InsertLength(s[0], Sorted(s[1..])); Insert(s[0], Sorted(s[1..]))
  }

  lemma {:induction false} InsertLength(x: real, s: seq<real>)
    ensures |Insert(x, s)| == |s| + 1
  {
    if s != [] && x > s[0] {
      InsertLength(x, s[1..]);
    }
  }

  function Median(values: seq<real>): real {
    var s, n := Sorted(values), |values|;
    if n == 0 then 0.0
    else if n % 2 == 1 then s[(n - 1) / 2]
    else (s[n / 2 - 1] + s[n / 2]) / 2.0
  }

  function CountAtMost(s: seq<real>, x: real): nat {
    if s == [] then 0 else CountAtMost(s[1..], x) + (if s[0] <= x then 1 else 0)
  }

  function CountAtLeast(s: seq<real>, x: real): nat {
    if s == [] then 0 else CountAtLeast(s[1..], x) + (if s[0] >= x then 1 else 0)
  }

  lemma {:induction false} InsertCounts(y: real, s: seq<real>, x: real)
    ensures CountAtMost(Insert(y, s), x) == CountAtMost(s, x) + (if y <= x then 1 else 0)
    ensures CountAtLeast(Insert(y, s), x) == CountAtLeast(s, x) + (if y >= x then 1 else 0)
  {
    if s == [] || y <= s[0] {
      assert ([y] + s)[1..] == s;
    } else {
      InsertCounts(y, s[1..], x);
      assert Insert(y, s)[1..] == Insert(y, s[1..]);
    }
  }

  lemma {:induction false} SortedCounts(s: seq<real>, x: real)
    ensures CountAtMost(Sorted(s), x) == CountAtMost(s, x)
    ensures CountAtLeast(Sorted(s), x) == CountAtLeast(s, x)
  {
    if s != [] {
      SortedCounts(s[1..], x);
      InsertCounts(s[0], Sorted(s[1..]), x);
    }
  }

  ghost predicate Ascending(s: seq<real>) {
    forall i, j :: 0 <= i <= j < |s| ==> s[i] <= s[j]
  }

  lemma {:induction false} InsertAscending(x: real, s: seq<real>)
    requires Ascending(s)
    ensures Ascending(Insert(x, s))
    ensures forall y :: y in Insert(x, s) <==> y == x || y in s
  {
    if s != [] && x > s[0] {
      InsertAscending(x, s[1..]);
      var r := Insert(x, s);
      assert s == [s[0]] + s[1..];
      forall i, j | 0 <= i <= j < |r| ensures r[i] <= r[j] {
        if i == 0 && j > 0 {
          assert r[j] in Insert(x, s[1..]);
        }
      }
    }
  }

  lemma {:induction false} SortedAscending(s: seq<real>)
    ensures Ascending(Sorted(s))
  {
    if s != [] {
      SortedAscending(s[1..]);
      InsertAscending(s[0], Sorted(s[1..]));
    }
  }

  lemma {:induction false} AscendingCounts(s: seq<real>, k: nat, x: real)
    requires Ascending(s) && k <= |s|
    ensures (forall i :: 0 <= i < k ==> s[i] <= x) ==> CountAtMost(s, x) >= k
    ensures (forall i :: k <= i < |s| ==> s[i] >= x) ==> CountAtLeast(s, x) >= |s| - k
  {
    if s != [] {
      if k > 0 {
        AscendingCounts(s[1..], k - 1, x);
      } else {
        AscendingCounts(s[1..], 0, x);
      }
    }
  }

  lemma OddMiddle(s: seq<real>, mid: nat)
    requires Ascending(s) && |s| == 2 * mid + 1
    ensures 2 * CountAtMost(s, s[mid]) >= |s| && 2 * CountAtLeast(s, s[mid]) >= |s|
  {
    AscendingCounts(s, mid + 1, s[mid]);
    AscendingCounts(s, mid, s[mid]);
  }

  lemma EvenMiddle(s: seq<real>, mid: nat, x: real)
    requires Ascending(s) && |s| == 2 * mid > 0 && s[mid - 1] <= x <= s[mid]
    ensures 2 * CountAtMost(s, x) >= |s| && 2 * CountAtLeast(s, x) >= |s|
  {
    AscendingCounts(s, mid, x);
  }

  lemma Halfway(x: real, y: real)
    requires x <= y
    ensures x <= (x + y) / 2.0 <= y
  {
  }

  lemma MiddleSplits(s: seq<real>, x: real)
    requires Ascending(s) && s != []
    requires x == if |s| % 2 == 1 then s[(|s| - 1) / 2] else (s[|s| / 2 - 1] + s[|s| / 2]) / 2.0
    ensures 2 * CountAtMost(s, x) >= |s| && 2 * CountAtLeast(s, x) >= |s|
  {
    if |s| % 2 == 1 {
      OddMiddle(s, (|s| - 1) / 2);
    } else {
      var mid := |s| / 2;
      Halfway(s[mid - 1], s[mid]);
      EvenMiddle(s, mid, x);
    }
  }

  /** At least half of the values are at most the median and at least half are at least the median. */
  lemma MedianSplitsValues(values: seq<real>)
    requires values != []
    ensures 2 * CountAtMost(values, Median(values)) >= |values|
    ensures 2 * CountAtLeast(values, Median(values)) >= |values|
  {
    SortedAscending(values);
    SortedCounts(values, Median(values));
    MiddleSplits(Sorted(values), Median(values));
  }

  lemma {:induction false} InsertKeeps(x: real, s: seq<real>)
    ensures multiset(Insert(x, s)) == multiset(s) + multiset{x}
  {
    if s != [] && x > s[0] {
      InsertKeeps(x, s[1..]);
      assert s == [s[0]] + s[1..];
    }
  }

  /** Sorting rearranges the values. */
  lemma {:induction false} SortedPermutes(s: seq<real>)
    ensures multiset(Sorted(s)) == multiset(s)
  {
    if s != [] {
      SortedPermutes(s[1..]);
      InsertKeeps(s[0], Sorted(s[1..]));
      assert s == [s[0]] + s[1..];
    }
  }

  /** The first of an ascending list is its least value. */
  lemma LeastFirst(p: seq<real>, q: seq<real>)
    requires Ascending(p) && Ascending(q) && multiset(p) == multiset(q) && p != [] && q != []
    ensures p[0] == q[0]
  {
    assert p[0] in multiset(q) && q[0] in multiset(p);
    var i :| 0 <= i < |q| && q[i] == p[0];
    var j :| 0 <= j < |p| && p[j] == q[0];
  }

  lemma RestAscends(p: seq<real>)
    requires p != []
    ensures multiset(p[1..]) == multiset(p) - multiset{p[0]}
    ensures Ascending(p) ==> Ascending(p[1..])
    ensures p == [p[0]] + p[1..] && |p| == |multiset(p)|
  {
    assert p == [p[0]] + p[1..];
  }

  /** A list has one ascending arrangement. */
  lemma {:induction false} AscendingUnique(p: seq<real>, q: seq<real>)
    requires Ascending(p) && Ascending(q) && multiset(p) == multiset(q)
    ensures p == q
  {
    if p == [] {
      assert |q| == |multiset(q)|;
    } else {
      RestAscends(p);
      assert q != [];
      RestAscends(q);
      LeastFirst(p, q);
      AscendingUnique(p[1..], q[1..]);
    }
  }

  /** The median is the middle of the values, however they are put in ascending order. */
  lemma MedianIsMiddle(values: seq<real>, p: seq<real>)
    requires Ascending(p) && multiset(p) == multiset(values)
    ensures |p| == |values|
    ensures p == [] ==> Median(values) == 0.0
    ensures |p| % 2 == 1 ==> Median(values) == p[(|p| - 1) / 2]
    ensures p != [] && |p| % 2 == 0 ==> Median(values) == (p[|p| / 2 - 1] + p[|p| / 2]) / 2.0
  {
    SortedAscending(values);
    SortedPermutes(values);
    AscendingUnique(p, Sorted(values));
  }

  /** The middle of the values put in ascending order: the mean of the two middle ones when their number is even. */
  ghost predicate MiddleOf(values: seq<real>, x: real) {
    forall p: seq<real> :: Ascending(p) && multiset(p) == multiset(values) ==>
      x == if p == [] then 0.0
           else if |p| % 2 == 1 then p[(|p| - 1) / 2]
           else (p[|p| / 2 - 1] + p[|p| / 2]) / 2.0
  }

  lemma MedianIsMiddleOf(values: seq<real>)
    ensures MiddleOf(values, Median(values))
  {
    forall p: seq<real> | Ascending(p) && multiset(p) == multiset(values)
      ensures Median(values) == if p == [] then 0.0
                                else if |p| % 2 == 1 then p[(|p| - 1) / 2]
                                else (p[|p| / 2 - 1] + p[|p| / 2]) / 2.0
    {
      MedianIsMiddle(values, p);
    }
  }

  // ----- the seven-day window ----------------------------------------------

  /** Append, then drop the oldest value of more than seven. */
  function Slide(window: seq<real>, median: real): seq<real> {
    var w := window + [median];
    if |w| > 7 then w[1..] else w
  }

  function SumReals(s: seq<real>): real {
    if s == [] then 0.0 else SumReals(s[..|s| - 1]) + s[|s| - 1]
  }

  lemma {:induction false} SumRealsAppend(s: seq<real>, t: seq<real>)
    ensures SumReals(s + t) == SumReals(s) + SumReals(t)
    ensures forall x: real :: SumReals([x]) == x
  {
    assert forall x: real :: [x][..0] == [];
    if t == [] {
      assert s + t == s;
    } else {
      SumRealsAppend(s, t[..|t| - 1]);
      assert (s + t)[..|s + t| - 1] == s + t[..|t| - 1];
    }
  }

  /** `calculate7DaysSMA`, with its zero answers for an empty and for an over-long window. */
  function Sma(window: seq<real>): real {
    if window == [] || |window| > 7 then 0.0 else SumReals(window) / |window| as real
  }

  method SortedMiddle(values: seq<real>) returns (median: real)
    ensures median == Median(values)
  {
    if |values| == 0 {
      return 0.0;
    }
    if |values| == 1 {
      assert Sorted(values) == [values[0]];
      return values[0];
    }
    var sortedValues := Sorted(values);
    var length := |sortedValues|;
    if length % 2 == 0 {
      var sum := sortedValues[length / 2 - 1] + sortedValues[length / 2];
      median := sum / 2.0;
    } else {
      median := sortedValues[(length - 1) / 2];
    }
  }

  method CalculateMedian(values: seq<real>) returns (median: real)
    ensures median == Median(values) && MiddleOf(values, median)
  {
    median := SortedMiddle(values);
    MedianIsMiddleOf(values);
  }

  method UpdateHistoricalArray(historical: seq<real>, median: real) returns (updated: seq<real>)
    ensures updated == Slide(historical, median)
  {
    updated := historical + [median];
    if |updated| > 7 {
      updated := updated[1..];
    }
  }

  method Calculate7DaysSMA(historical: seq<real>) returns (sma: real)
    ensures sma == Sma(historical)
  {
    if |historical| == 0 {
      return 0.0;
    }
    if |historical| > 7 {
      return 0.0;
    }
    var sum := 0.0;
    for i := 0 to |historical|
      invariant sum == SumReals(historical[..i])
    {
      assert historical[..i + 1][..i] == historical[..i];
      sum := sum + historical[i];
    }
    assert historical[..|historical|] == historical;
    sma := sum / |historical| as real;
  }
}
