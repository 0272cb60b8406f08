/** Sums of sequences of whole paise, and the few laws the arithmetic modules need. */
module Sums {

  function Sum(s: seq<int>): int {
    if s == [] then 0 else Sum(s[..|s| - 1]) + s[|s| - 1]
  }

  lemma SumSnoc(s: seq<int>, x: int)
    ensures Sum(s + [x]) == Sum(s) + x
  {
    assert (s + [x])[..|s|] == s;
  }

  lemma SumPrefix(s: seq<int>, n: nat)
    requires n < |s|
    ensures Sum(s[..n + 1]) == Sum(s[..n]) + s[n]
  {
    assert s[..n + 1] == s[..n] + [s[n]];
    SumSnoc(s[..n], s[n]);
  }

  lemma {:induction false} SumUpdate(s: seq<int>, i: nat, v: int)
    requires i < |s|
    ensures Sum(s[i := v]) == Sum(s) - s[i] + v
  {
    var last := |s| - 1;
    if i == last {
      assert s[i := v][..last] == s[..last];
    } else {
      assert s[i := v][..last] == s[..last][i := v];
      SumUpdate(s[..last], i, v);
    }
  }

  lemma {:induction false} SumNonNegative(s: seq<int>)
    requires forall i :: 0 <= i < |s| ==> 0 <= s[i]
    ensures 0 <= Sum(s)
    ensures forall i :: 0 <= i < |s| ==> s[i] <= Sum(s)
  {
    if s != [] {
      SumNonNegative(s[..|s| - 1]);
      forall i | 0 <= i < |s| ensures s[i] <= Sum(s) {
        if i < |s| - 1 {
          assert s[..|s| - 1][i] == s[i];
        }
      }
    }
  }

  lemma {:induction false} SumZeros(s: seq<int>)
    requires forall i :: 0 <= i < |s| ==> s[i] == 0
    ensures Sum(s) == 0
  {
    if s != [] {
      SumZeros(s[..|s| - 1]);
    }
  }

  /** Pointwise a[i] + b[i] == c[i] adds up. */
  lemma {:induction false} SumAdds(a: seq<int>, b: seq<int>, c: seq<int>)
    requires |a| == |b| == |c|
    requires forall i :: 0 <= i < |a| ==> c[i] == a[i] + b[i]
    ensures Sum(c) == Sum(a) + Sum(b)
  {
    if a != [] {
      var n := |a| - 1;
      SumAdds(a[..n], b[..n], c[..n]);
    }
  }

  lemma {:induction false} SumScales(a: seq<int>, k: int, b: seq<int>)
    requires |a| == |b|
    requires forall i :: 0 <= i < |a| ==> b[i] == k * a[i]
    ensures Sum(b) == k * Sum(a)
  {
    if a != [] {
      var n := |a| - 1;
      SumScales(a[..n], k, b[..n]);
      assert k * Sum(a) == k * Sum(a[..n]) + k * a[n];
    }
  }

  /** Pointwise distance at most d adds up to at most d times the length. */
  lemma {:induction false} SumWithin(a: seq<int>, b: seq<int>, d: int)
    requires |a| == |b|
    requires 0 <= d
    requires forall i :: 0 <= i < |a| ==> -d <= a[i] - b[i] <= d
    ensures -(d * |a|) <= Sum(a) - Sum(b) <= d * |a|
  {
    if a != [] {
      var n := |a| - 1;
      SumWithin(a[..n], b[..n], d);
      assert d * |a| == d * n + d;
    }
  }

  /** The sum of amounts none of which is negative. */
  function Total(x: seq<nat>): (t: nat)
    ensures t == Sum(x)
  {
    SumNonNegative(x);
    Sum(x)
  }
}
