/** Aggregates over a list of monthly values: the `sum`, `min`, `max` and
    conditional count that the classifier takes over its 12 monthly
    temperatures and precipitation totals. Values are exact reals. */
module ClimateStats {

  /** Total of all values (Python's `sum`); 0 for an empty list. */
  function Sum(s: seq<real>): (r: real)
    ensures (forall i :: 0 <= i < |s| ==> s[i] >= 0.0) ==> r >= 0.0
  {
    if |s| == 0 then 0.0 else s[0] + Sum(s[1..])
  }

  /** The total of a concatenation is the total of its parts. */
  lemma {:induction false} SumAppend(a: seq<real>, b: seq<real>)
    ensures Sum(a + b) == Sum(a) + Sum(b)
  {
    if |a| == 0 {
      assert a + b == b;
    } else {
      assert (a + b)[1..] == a[1..] + b;
      SumAppend(a[1..], b);
    }
  }

  /** Smallest value (Python's `min`), which raises on an empty list. */
  function Min(s: seq<real>): (m: real)
    requires |s| > 0
    ensures m in s
    ensures forall x :: x in s ==> m <= x
  {
    if |s| == 1 then s[0]
    else
      var rest := Min(s[1..]);
      assert forall x :: x in s ==> x == s[0] || x in s[1..];
      if s[0] <= rest then s[0] else rest
  }

  /** Largest value (Python's `max`), which raises on an empty list. */
  function Max(s: seq<real>): (m: real)
    requires |s| > 0
    ensures m in s
    ensures forall x :: x in s ==> x <= m
  {
    if |s| == 1 then s[0]
    else
      var rest := Max(s[1..]);
      assert forall x :: x in s ==> x == s[0] || x in s[1..];
      if s[0] >= rest then s[0] else rest
  }

  /** Number of values at or above `t` (`sum(1 for x in s if x >= t)`):
      positive exactly when some value reaches `t`. */
  function CountAtLeast(s: seq<real>, t: real): (n: nat)
    ensures n <= |s|
    ensures n > 0 <==> exists x :: x in s && x >= t
    ensures |s| == 1 ==> (n == 1 <==> s[0] >= t)
  {
    if |s| == 0 then 0
    else
      assert s[0] in s;
      assert forall x :: x in s <==> x == s[0] || x in s[1..];
      (if s[0] >= t then 1 else 0) + CountAtLeast(s[1..], t)
  }

  /** Counting over a concatenation adds the counts of its parts; with the
      one-value case above this pins the count down to the number of values
      at or above `t`. */
  lemma {:induction false} CountAtLeastAppend(a: seq<real>, b: seq<real>, t: real)
    ensures CountAtLeast(a + b, t) == CountAtLeast(a, t) + CountAtLeast(b, t)
  {
    if |a| == 0 {
      assert a + b == b;
    } else {
      assert (a + b)[1..] == a[1..] + b;
      CountAtLeastAppend(a[1..], b, t);
    }
  }

  /** The largest value reaches `t` exactly when at least one value is counted. */
  lemma MaxReachesIffCounted(s: seq<real>, t: real)
    requires |s| > 0
    ensures Max(s) >= t <==> CountAtLeast(s, t) > 0
  {
    if Max(s) >= t {
      assert Max(s) in s;
    }
  }
}
