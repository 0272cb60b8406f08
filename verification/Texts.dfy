/** Texts joined by a separator. */
module Texts {

  function Join(parts: seq<string>, sep: char): string {
    if parts == [] then "" else if |parts| == 1 then parts[0]
    else parts[0] + [sep] + Join(parts[1..], sep)
  }

  lemma {:induction false} JoinLast(parts: seq<string>, last: string, sep: char)
    requires parts != []
    ensures Join(parts + [last], sep) == Join(parts, sep) + [sep] + last
    decreases |parts|
  {
    assert (parts + [last])[1..] == parts[1..] + [last];
    if |parts| > 1 {
      JoinLast(parts[1..], last, sep);
    }
  }

  predicate Piece(s: string, sep: char) {
    s != "" && sep !in s
  }

  lemma SplitAtFirst(x: string, a: string, y: string, b: string, sep: char)
    requires x + [sep] + a == y + [sep] + b && sep !in x && sep !in y
    ensures x == y && a == b
  {
    var whole := x + [sep] + a;
    assert whole[|x|] == sep && whole[|y|] == sep;
    assert forall k :: 0 <= k < |x| ==> whole[k] == x[k];
    assert forall k :: 0 <= k < |y| ==> whole[k] == y[k];
    assert x == whole[..|x|] && y == whole[..|y|];
    assert a == whole[|x| + 1..] && b == whole[|y| + 1..];
  }

  /** Joining can be undone when no part is empty or holds the separator. */
  lemma {:induction false} JoinDetermines(xs: seq<string>, ys: seq<string>, sep: char)
    requires forall k :: 0 <= k < |xs| ==> Piece(xs[k], sep)
    requires forall k :: 0 <= k < |ys| ==> Piece(ys[k], sep)
    requires Join(xs, sep) == Join(ys, sep)
    ensures xs == ys
    decreases |xs|
  {
    if |xs| > 1 && |ys| > 1 {
      SplitAtFirst(xs[0], Join(xs[1..], sep), ys[0], Join(ys[1..], sep), sep);
      JoinDetermines(xs[1..], ys[1..], sep);
      assert xs == [xs[0]] + xs[1..] && ys == [ys[0]] + ys[1..];
    } else if |xs| > 1 {
      HoldsSeparator(xs, sep);
    } else if |ys| > 1 {
      HoldsSeparator(ys, sep);
    }
  }

  lemma HoldsSeparator(xs: seq<string>, sep: char)
    requires |xs| > 1
    ensures sep in Join(xs, sep)
  {
    assert Join(xs, sep)[|xs[0]|] == sep;
  }
}
