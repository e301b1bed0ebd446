/** Combination of per-block tallies over a set of block indices. The sum is
    defined by picking keys in an unspecified order; TotalRemove shows that
    the order does not matter. */
module Totals {
  import opened Tallies

  ghost function Total<K>(s: set<K>, f: K -> Tally): (t: Tally)
    ensures Anchored(t)
    decreases s
  {
    if s == {} then Zero
    else
      var k :| k in s;
      Combine(f(k), Total(s - {k}, f))
  }

  /** A property every key's tally has, and that Zero has and Combine
      keeps, holds of the total. Stated for the three such properties used. */
  lemma {:induction false} TotalSound<K>(s: set<K>, f: K -> Tally)
    requires forall k :: k in s ==> Sound(f(k))
    ensures Sound(Total(s, f))
    decreases s
  {
    if s != {} {
      var k :| k in s && Total(s, f) == Combine(f(k), Total(s - {k}, f));
      TotalSound(s - {k}, f);
      assert Sound(f(k)) && Sound(Total(s - {k}, f));
      assert Sound(Combine(f(k), Total(s - {k}, f)));
    }
  }

  lemma {:induction false} TotalErrorFree<K>(s: set<K>, f: K -> Tally)
    requires forall k :: k in s ==> ErrorFree(f(k))
    ensures ErrorFree(Total(s, f))
    decreases s
  {
    if s != {} {
      var k :| k in s && Total(s, f) == Combine(f(k), Total(s - {k}, f));
      TotalErrorFree(s - {k}, f);
      assert ErrorFree(f(k)) && ErrorFree(Total(s - {k}, f));
      assert ErrorFree(Combine(f(k), Total(s - {k}, f)));
    }
  }

  lemma {:induction false} TotalOnlyNonOverlapping<K>(s: set<K>, f: K -> Tally)
    requires forall k :: k in s ==> OnlyNonOverlapping(f(k))
    ensures OnlyNonOverlapping(Total(s, f))
    decreases s
  {
    if s != {} {
      var k :| k in s && Total(s, f) == Combine(f(k), Total(s - {k}, f));
      TotalOnlyNonOverlapping(s - {k}, f);
      assert OnlyNonOverlapping(f(k)) && OnlyNonOverlapping(Total(s - {k}, f));
      assert OnlyNonOverlapping(Combine(f(k), Total(s - {k}, f)));
    }
  }

  /** Tallies whose minimum error is 0 total to a minimum error of 0. */
  lemma {:induction false} TotalMinErrorZero<K>(s: set<K>, f: K -> Tally)
    requires forall k :: k in s ==> f(k).errors.smallest == 0.0
    ensures Total(s, f).errors.smallest == 0.0
    decreases s
  {
    if s != {} {
      var k :| k in s && Total(s, f) == Combine(f(k), Total(s - {k}, f));
      TotalMinErrorZero(s - {k}, f);
      assert Combine(f(k), Total(s - {k}, f)).errors.smallest == Min(0.0, 0.0);
    }
  }

  /** Any key may be taken out first: the result does not depend on the
      order in which the blocks are visited. */
  lemma {:induction false} TotalRemove<K>(s: set<K>, f: K -> Tally, y: K)
    requires y in s
    ensures Total(s, f) == Combine(f(y), Total(s - {y}, f))
    decreases s
  {
    var k :| k in s && Total(s, f) == Combine(f(k), Total(s - {k}, f));
    if k != y {
      TotalRemove(s - {k}, f, y);
      TotalRemove(s - {y}, f, k);
      assert s - {k} - {y} == s - {y} - {k};
      CombineAssociates(f(k), f(y), Total(s - {k} - {y}, f));
      CombineAssociates(f(y), f(k), Total(s - {k} - {y}, f));
      CombineCommutes(f(k), f(y));
    }
  }

  /** The total over one key is that key's tally. */
  lemma TotalOfOne<K>(k: K, f: K -> Tally)
    requires Anchored(f(k))
    ensures Total({k}, f) == f(k)
  {
    TotalRemove({k}, f, k);
    assert {k} - {k} == {};
    ZeroIsNeutral(f(k));
  }

  /** Visiting one more key merges its tally into the running total. */
  lemma TotalInsert<K>(s: set<K>, f: K -> Tally, y: K)
    requires y !in s
    ensures Total(s + {y}, f) == Combine(Total(s, f), f(y))
  {
    TotalRemove(s + {y}, f, y);
    assert s + {y} - {y} == s;
    CombineCommutes(f(y), Total(s, f));
  }

  /** The total over two disjoint sets is the merge of the two totals. */
  lemma {:induction false} TotalSplit<K>(a: set<K>, b: set<K>, f: K -> Tally)
    requires a !! b
    ensures Total(a + b, f) == Combine(Total(a, f), Total(b, f))
    decreases a
  {
    if a == {} {
      assert a + b == b;
      ZeroIsNeutral(Total(b, f));
    } else {
      var y :| y in a;
      TotalRemove(a + b, f, y);
      TotalRemove(a, f, y);
      assert a + b - {y} == (a - {y}) + b;
      TotalSplit(a - {y}, b, f);
      CombineAssociates(f(y), Total(a - {y}, f), Total(b, f));
    }
  }

  /** Two per-key functions that agree on the set have the same total. */
  lemma {:induction false} TotalAgree<K>(s: set<K>, f: K -> Tally, g: K -> Tally)
    requires forall k :: k in s ==> f(k) == g(k)
    ensures Total(s, f) == Total(s, g)
    decreases s
  {
    if s != {} {
      var y :| y in s;
      TotalRemove(s, f, y);
      TotalRemove(s, g, y);
      TotalAgree(s - {y}, f, g);
    }
  }

  /** Keys whose tally is Zero leave the total at Zero. */
  lemma {:induction false} TotalOfZeros<K>(s: set<K>, f: K -> Tally)
    requires forall k :: k in s ==> f(k) == Zero
    ensures Total(s, f) == Zero
    decreases s
  {
    if s != {} {
      var y :| y in s;
      TotalRemove(s, f, y);
      TotalOfZeros(s - {y}, f);
      assert f(y) == Zero && Total(s - {y}, f) == Zero;
      ZeroIsNeutral(Zero);
    }
  }

  /** When every key classifies n voxels, the total classifies |s| * n. */
  lemma {:induction false} TotalClassified<K>(s: set<K>, f: K -> Tally, n: nat)
    requires forall k :: k in s ==> Classified(f(k)) == n
    ensures Classified(Total(s, f)) == |s| * n
    decreases s
  {
    if s != {} {
      var y :| y in s;
      TotalRemove(s, f, y);
      TotalClassified(s - {y}, f, n);
      assert |s - {y}| == |s| - 1;
      MultiplyStep(Classified(Total(s, f)), Classified(Total(s - {y}, f)), |s|, n);
    }
  }

  lemma MultiplyStep(total: int, restTotal: int, size: nat, n: nat)
    requires size >= 1 && restTotal == (size - 1) * n && total == n + restTotal
    ensures total == size * n
  {
  }

  /** No key's maximum error exceeds the total's. */
  lemma TotalMaxBound<K>(s: set<K>, f: K -> Tally, y: K)
    requires y in s
    ensures f(y).errors.largest <= Total(s, f).errors.largest
  {
    TotalRemove(s, f, y);
  }

  /** With sound tallies, no key's evaluated count or squared error exceeds
      the total's. */
  lemma TotalSoundBound<K>(s: set<K>, f: K -> Tally, y: K)
    requires y in s
    requires forall k :: k in s ==> Sound(f(k))
    ensures f(y).counts.evaluated <= Total(s, f).counts.evaluated
    ensures f(y).errors.sumSquared <= Total(s, f).errors.sumSquared
  {
    TotalRemove(s, f, y);
    TotalSound(s - {y}, f);
    assert Sound(Total(s - {y}, f));
  }

  /** A positive total maximum error is the maximum error of some key. */
  lemma {:induction false} TotalMaxAttained<K>(s: set<K>, f: K -> Tally)
    requires Total(s, f).errors.largest > 0.0
    ensures exists k :: k in s && f(k).errors.largest == Total(s, f).errors.largest
    decreases s
  {
    var y :| y in s;
    TotalRemove(s, f, y);
    if f(y).errors.largest < Total(s - {y}, f).errors.largest {
      TotalMaxAttained(s - {y}, f);
      var k :| k in s - {y} && f(k).errors.largest == Total(s - {y}, f).errors.largest;
      assert k in s;
    }
  }
}
