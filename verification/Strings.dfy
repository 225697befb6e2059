/** The order Python gives strings, and sorting by it. */
module Strings {

  predicate LexLess(a: string, b: string) {
    b != [] && (a == [] || a[0] < b[0] || (a[0] == b[0] && LexLess(a[1..], b[1..])))
  }

  lemma {:induction false} LexLessTotal(a: string, b: string)
    ensures a == b || LexLess(a, b) || LexLess(b, a)
  {
    if a != [] && b != [] {
      LexLessTotal(a[1..], b[1..]);
      if a[0] == b[0] && a[1..] == b[1..] {
        assert a == [a[0]] + a[1..];
        assert b == [b[0]] + b[1..];
      }
    }
  }

  lemma {:induction false} LexLessTransitive(a: string, b: string, c: string)
    requires LexLess(a, b) && LexLess(b, c)
    ensures LexLess(a, c)
  {
    if a != [] && a[0] == b[0] && b[0] == c[0] {
      LexLessTransitive(a[1..], b[1..], c[1..]);
    }
  }

  lemma {:induction false} LexLessIrreflexive(a: string)
    ensures !LexLess(a, a)
  {
    if a != [] {
      LexLessIrreflexive(a[1..]);
    }
  }

  predicate LexLeq(a: string, b: string) { a == b || LexLess(a, b) }

  predicate Sorted(xs: seq<string>) {
    forall i, j | 0 <= i < j < |xs| :: LexLeq(xs[i], xs[j])
  }

  function Insert(x: string, xs: seq<string>): seq<string> {
    if xs == [] then [x]
    else if LexLeq(x, xs[0]) then [x] + xs
    else [xs[0]] + Insert(x, xs[1..])
  }

  function Sort(xs: seq<string>): seq<string> {
    if xs == [] then [] else Insert(xs[0], Sort(xs[1..]))
  }

  lemma {:induction false} InsertKeeps(x: string, xs: seq<string>)
    ensures multiset(Insert(x, xs)) == multiset{x} + multiset(xs)
  {
    if xs != [] && !LexLeq(x, xs[0]) {
      InsertKeeps(x, xs[1..]);
      assert xs == [xs[0]] + xs[1..];
    }
  }

  lemma {:induction false} InsertSorts(x: string, xs: seq<string>)
    requires Sorted(xs)
    ensures Sorted(Insert(x, xs))
  {
    if xs == [] {
    } else if LexLeq(x, xs[0]) {
      forall j | 0 <= j < |xs|
        ensures LexLeq(x, xs[j])
      {
        if j > 0 && x != xs[0] && xs[0] != xs[j] {
          LexLessTransitive(x, xs[0], xs[j]);
        }
      }
    } else {
      var tail := Insert(x, xs[1..]);
      InsertSorts(x, xs[1..]);
      InsertKeeps(x, xs[1..]);
      forall j | 0 <= j < |tail|
        ensures LexLeq(xs[0], tail[j])
      {
        assert tail[j] in multiset(tail);
        if tail[j] == x {
          LexLessTotal(x, xs[0]);
        } else {
          assert tail[j] in multiset(xs[1..]);
          assert tail[j] in xs[1..];
        }
      }
    }
  }

  lemma {:induction false} SortIsSorted(xs: seq<string>)
    ensures Sorted(Sort(xs)) && multiset(Sort(xs)) == multiset(xs)
  {
    if xs != [] {
      SortIsSorted(xs[1..]);
      InsertSorts(xs[0], Sort(xs[1..]));
      InsertKeeps(xs[0], Sort(xs[1..]));
      assert xs == [xs[0]] + xs[1..];
    }
  }

  lemma SortedHeadIsLeast(xs: seq<string>, y: string)
    requires Sorted(xs) && y in multiset(xs)
    ensures LexLeq(xs[0], y)
  {
    assert y in xs;
  }

  lemma SameHead(xs: seq<string>, ys: seq<string>)
    requires Sorted(xs) && Sorted(ys) && xs != [] && ys != [] && multiset(xs) == multiset(ys)
    ensures xs[0] == ys[0]
  {
    assert xs[0] in multiset(xs) && ys[0] in multiset(ys);
    SortedHeadIsLeast(xs, ys[0]);
    SortedHeadIsLeast(ys, xs[0]);
    if xs[0] != ys[0] {
      LexLessTransitive(xs[0], ys[0], xs[0]);
      LexLessIrreflexive(xs[0]);
    }
  }

  lemma TailContents(xs: seq<string>)
    requires xs != []
    ensures multiset(xs[1..]) == multiset(xs) - multiset{xs[0]}
  {
    assert xs == [xs[0]] + xs[1..];
  }

  /** Only one order of the same strings is sorted. */
  lemma {:induction false} SortedIsUnique(xs: seq<string>, ys: seq<string>)
    requires Sorted(xs) && Sorted(ys) && multiset(xs) == multiset(ys)
    ensures xs == ys
  {
    assert |xs| == |multiset(xs)| == |multiset(ys)| == |ys|;
    if xs != [] {
      SameHead(xs, ys);
      TailContents(xs);
      TailContents(ys);
      SortedIsUnique(xs[1..], ys[1..]);
      assert xs == [xs[0]] + xs[1..] && ys == [ys[0]] + ys[1..];
    }
  }
}
