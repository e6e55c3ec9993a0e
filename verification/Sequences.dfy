/** Facts about lists: without repetition, increasing, concatenated. */
module Sequences {
  predicate Distinct<T(==)>(s: seq<T>) {
    forall i, j :: 0 <= i < j < |s| ==> s[i] != s[j]
  }

  lemma {:induction false} SubsetSize<T>(a: set<T>, b: set<T>)
    requires a <= b
    ensures |a| <= |b|
    ensures |a| == |b| ==> a == b
  {
    if a == {} {
      assert |b| == 0 ==> b == {};
    } else {
      var x :| x in a;
      SubsetSize(a - {x}, b - {x});
      assert a == a - {x} + {x} && b == b - {x} + {x};
    }
  }

  lemma {:induction false} DistinctIffFullSize<T>(s: seq<T>)
    ensures |set x | x in s| <= |s|
    ensures Distinct(s) <==> |set x | x in s| == |s|
  {
    if s != [] {
      var rest, last := s[..|s| - 1], s[|s| - 1];
      DistinctIffFullSize(rest);
      assert s == rest + [last];
      assert (set x | x in s) == (set x | x in rest) + {last};
      if last in rest {
        var i :| 0 <= i < |rest| && rest[i] == last;
        assert s[i] == s[|s| - 1];
        assert (set x | x in s) == (set x | x in rest);
      }
    }
  }

  /** Equally many distinct elements, all of them expected: then every expected one is there. */
  lemma SameElements<T>(named: seq<T>, expected: seq<T>)
    requires Distinct(named) && Distinct(expected) && |named| == |expected|
    requires forall x :: x in named ==> x in expected
    ensures forall x :: x in named <==> x in expected
  {
    var a, b := set x | x in named, set x | x in expected;
    DistinctIffFullSize(named);
    DistinctIffFullSize(expected);
    SubsetSize(a, b);
    forall x | x in expected ensures x in named {
      assert x in b;
    }
  }

  lemma Regroup<T>(a: seq<T>, b: seq<T>, c: seq<T>)
    ensures a + b + c == a + (b + c) && a + [] == a && [] + a == a
  {
  }

  lemma RegroupFour<T>(a: seq<T>, b: seq<T>, c: seq<T>, d: seq<T>)
    ensures a + b + c + d == a + (b + (c + d))
  {
    Regroup(a + b, c, d);
    Regroup(a, b, c + d);
  }

  ghost predicate Increasing(s: seq<int>) {
    forall i, j :: 0 <= i < j < |s| ==> s[i] < s[j]
  }

  lemma IncreasingSnoc(s: seq<int>, v: int)
    requires Increasing(s)
    ensures s == [] || s[|s| - 1] < v ==> Increasing(s + [v])
  {
  }
}
