/** Arithmetic on scores. Python floats are modelled as exact reals. */
module Numeric {

  /** Python's `sum()` over a list of floats. */
  function Sum(s: seq<real>): real
  {
    if s == [] then 0.0 else s[0] + Sum(s[1..])
  }

  lemma {:induction false} SumAppend(s: seq<real>, x: real)
    ensures Sum(s + [x]) == Sum(s) + x
  {
    if s != [] {
      assert (s + [x])[1..] == s[1..] + [x];
      SumAppend(s[1..], x);
    }
  }

  lemma {:induction false} SumConcat(s: seq<real>, t: seq<real>)
    ensures Sum(s + t) == Sum(s) + Sum(t)
  {
    if s == [] {
      assert s + t == t;
    } else {
      assert (s + t)[1..] == s[1..] + t;
      SumConcat(s[1..], t);
    }
  }

  ghost predicate AllInUnit(s: seq<real>)
  {
    forall i :: 0 <= i < |s| ==> 0.0 <= s[i] <= 1.0
  }

  /** A sum of n values in [0,1] lies in [0,n]. */
  lemma {:induction false} SumInRange(s: seq<real>)
    requires AllInUnit(s)
    ensures 0.0 <= Sum(s) <= |s| as real
  {
    if s != [] {
      assert AllInUnit(s[1..]) by {
        forall i | 0 <= i < |s[1..]| ensures 0.0 <= s[1..][i] <= 1.0 {
          assert s[1..][i] == s[i + 1];
        }
      }
      SumInRange(s[1..]);
    }
  }

  /** The arithmetic mean `sum(xs) / len(xs)`, and 0.0 for an empty list
      (the `if xs else 0.0` idiom of the source). */
  function Mean(s: seq<real>): real
  {
    if |s| == 0 then 0.0 else Sum(s) / |s| as real
  }

  lemma MeanInUnit(s: seq<real>)
    requires AllInUnit(s)
    ensures 0.0 <= Mean(s) <= 1.0
  {
    if |s| > 0 {
      SumInRange(s);
      var n := |s| as real;
      assert Sum(s) / n <= 1.0 by {
        assert Sum(s) <= n;
      }
    }
  }

  /** A count over a larger positive count lies in [0,1]. */
  lemma RatioInUnit(n: nat, d: nat)
    requires 0 < d && n <= d
    ensures 0.0 <= n as real / d as real <= 1.0
  {
    assert n as real <= d as real;
  }

  /** A list of n ones has mean 1. */
  lemma {:induction false} SumOfOnes(s: seq<real>)
    requires forall i :: 0 <= i < |s| ==> s[i] == 1.0
    ensures Sum(s) == |s| as real
  {
    if s != [] {
      SumOfOnes(s[1..]);
    }
  }

  lemma MeanOfOnes(s: seq<real>)
    requires |s| > 0
    requires forall i :: 0 <= i < |s| ==> s[i] == 1.0
    ensures Mean(s) == 1.0
  {
    SumOfOnes(s);
    var n := |s| as real;
    assert Sum(s) / n == n / n;
  }

  /** `max(lo, min(hi, x))`. */
  function Clamp(lo: real, hi: real, x: real): (r: real)
    requires lo <= hi
    ensures lo <= r <= hi
    ensures lo <= x <= hi ==> r == x
  {
    if x > hi then hi else if x < lo then lo else x
  }

  /** Python's `round(x, 4)` on the exact value: the nearest multiple of
      1/10000, ties to the even multiple. */
  function Round4(x: real): real
  {
    var scaled := x * 10000.0;
    var n := scaled.Floor;
    var frac := scaled - n as real;
    var k := if frac > 0.5 then n + 1
             else if frac < 0.5 then n
             else if n % 2 == 0 then n else n + 1;
    k as real / 10000.0
  }

  /** Rounding keeps a score inside [0,1]. */
  lemma Round4InUnit(x: real)
    requires 0.0 <= x <= 1.0
    ensures 0.0 <= Round4(x) <= 1.0
  {
    var scaled := x * 10000.0;
    var n := scaled.Floor;
    assert 0 <= n <= 10000;
    if n == 10000 {
      assert scaled == 10000.0;
    }
  }

  /** A value that already has at most four decimals is left unchanged. */
  lemma Round4Exact(k: int)
    ensures Round4(k as real / 10000.0) == k as real / 10000.0
  {
    var x := k as real / 10000.0;
    assert x * 10000.0 == k as real;
  }

  lemma Round4Zero()
    ensures Round4(0.0) == 0.0
  {
    Round4Exact(0);
  }

  lemma Round4One()
    ensures Round4(1.0) == 1.0
  {
    Round4Exact(10000);
  }

  lemma {:induction false} SubsetCard<T>(a: set<T>, b: set<T>)
    requires a <= b
    ensures |a| <= |b|
  {
    if a != {} {
      var x :| x in a;
      SubsetCard(a - {x}, b - {x});
    }
  }
}
