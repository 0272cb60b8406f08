/** Sizes of finite sets. */
module Sets {

  lemma {:induction false} SubsetSmaller<T>(a: set<T>, b: set<T>)
    requires a <= b
    ensures |a| <= |b|
    decreases |b|
  {
    if b != {} {
      var x :| x in b;
      SubsetSmaller(a - {x}, b - {x});
    }
  }

  lemma OnlyMember<T>(s: set<T>, x: T)
    requires |s| <= 1 && x in s
    ensures s <= {x}
  {
    assert |s - {x}| == |s| - 1;
  }
}
