/** Elements of finite sets, as the ordered maps of the program iterate over them. */
module FiniteSets {
  lemma Pick<T>(s: set<T>) returns (x: T)
    requires |s| > 0
    ensures x in s
  {
    x :| x in s;
  }

  lemma SubsetSize<T>(a: set<T>, b: set<T>)
    requires a <= b
    ensures |a| <= |b|
  {
    var rest := b - a;
    assert b == a + rest;
    assert |b| == |a| + |rest|;
  }

  /** A set that has room for one more element below a bound is smaller than a set holding that element too. */
  lemma OneMore<T>(a: set<T>, x: T, b: set<T>)
    requires x !in a && a + {x} <= b
    ensures |a| < |b|
  {
    SubsetSize(a + {x}, b);
  }

  ghost predicate TotalOrder<T(!new)>(le: (T, T) -> bool) {
    && (forall a, b :: le(a, b) || le(b, a))
    && (forall a, b, c :: le(a, b) && le(b, c) ==> le(a, c))
  }

  /** A nonempty finite set has a least element. */
  lemma {:induction false} LeastOf<T(!new)>(s: set<T>, le: (T, T) -> bool) returns (least: T)
    requires |s| > 0 && TotalOrder(le)
    ensures least in s && forall other :: other in s ==> le(least, other)
    decreases |s|
  {
    least := Pick(s);
    var rest := s - {least};
    assert forall other :: other in s ==> other == least || other in rest;
    if |rest| > 0 {
      var next := LeastOf(rest, le);
      least := if le(least, next) then least else next;
    }
  }

  lemma LeastNumber(s: set<int>) returns (least: int)
    requires |s| > 0
    ensures least in s && forall other :: other in s ==> least <= other
  {
    var le := (a: int, b: int) => a <= b;
    least := LeastOf(s, le);
    forall other | other in s ensures least <= other {
      assert le(least, other);
    }
  }
}
