/** Facts and steps about finite collections that several modules use. */
module Collections {
  lemma {:induction false} SubsetCount<T>(a: set<T>, b: set<T>)
    requires a <= b
    ensures |a| <= |b|
  {
    if a != {} {
      var x :| x in a;
      SubsetCount(a - {x}, b - {x});
    }
  }

  lemma Member<T>(s: set<T>) returns (x: T)
    requires s != {}
    ensures x in s
  {
    x :| x in s;
  }

  /** One step past the end of a ring. */
  lemma Wraps(a: nat, n: nat)
    requires 0 < n && a < 2 * n
    ensures a % n == if a < n then a else a - n
  {
    if a >= n { assert a == n + (a - n); }
  }

  /** One step of a loop over a set in no particular order: an element and what is left. */
  method Pick<T(==)>(s: set<T>) returns (x: T, left: set<T>)
    requires s != {}
    ensures x in s && left == s - {x}
  {
    x :| x in s;
    left := s - {x};
  }

  lemma Reassociate<T>(a: seq<T>, b: seq<T>, c: seq<T>)
    ensures a + b + c == a + (b + c)
  {
  }

  ghost predicate Distinct<T(!new)>(xs: seq<T>) { forall a, b | 0 <= a < b < |xs| :: xs[a] != xs[b] }

  lemma {:induction false} DistinctCount<T(!new)>(xs: seq<T>)
    requires Distinct(xs)
    ensures |set x | x in xs| == |xs|
  {
    if xs != [] {
      DistinctCount(xs[1..]);
      assert (set x | x in xs) == (set x | x in xs[1..]) + {xs[0]};
    }
  }
}
