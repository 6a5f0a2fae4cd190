/**
 * Lexicographic order on strings. Go compares strings byte by byte; for ids
 * that are valid UTF-8 this is the order of their code points, because UTF-8
 * preserves that order, so comparing characters by code point, as here,
 * orders such ids the same way. Ids that are not valid UTF-8 have no
 * counterpart here.
 */
module Lexicographic {

  import opened Sorting

  /** `a` sorts strictly before `b`. */
  predicate Less(a: string, b: string)
    decreases |a|
  {
    b != [] && (a == [] || a[0] < b[0] || (a[0] == b[0] && Less(a[1..], b[1..])))
  }

  predicate LessEq(a: string, b: string) {
    a == b || Less(a, b)
  }

  lemma {:induction false} LessIrreflexive(a: string)
    ensures !Less(a, a)
    decreases |a|
  {
    if a != [] {
      LessIrreflexive(a[1..]);
    }
  }

  lemma {:induction false} LessTrichotomy(a: string, b: string)
    ensures a == b || Less(a, b) || Less(b, a)
    decreases |a|
  {
    if a != [] && b != [] && a[0] == b[0] {
      LessTrichotomy(a[1..], b[1..]);
      if a[1..] == b[1..] {
        assert a == [a[0]] + a[1..] && b == [b[0]] + b[1..];
      }
    }
  }

  lemma {:induction false} LessTransitive(a: string, b: string, c: string)
    requires Less(a, b) && Less(b, c)
    ensures Less(a, c)
    decreases |a|
  {
    if a != [] && a[0] == b[0] && b[0] == c[0] {
      LessTransitive(a[1..], b[1..], c[1..]);
    }
  }

  lemma LessAsymmetric(a: string, b: string)
    requires Less(a, b)
    ensures !Less(b, a)
  {
    if Less(b, a) {
      LessTransitive(a, b, a);
      LessIrreflexive(a);
    }
  }

  /** LessEq is a total order, so sorting by it is well defined. */
  lemma LessEqTotalOrder()
    ensures TotalOrder(LessEq)
  {
    forall x, y ensures LessEq(x, y) || LessEq(y, x) {
      LessTrichotomy(x, y);
    }
    forall x, y | LessEq(x, y) && LessEq(y, x) ensures x == y {
      if x != y {
        LessAsymmetric(x, y);
      }
    }
    forall x, y, z | LessEq(x, y) && LessEq(y, z) ensures LessEq(x, z) {
      if x != y && y != z {
        LessTransitive(x, y, z);
      }
    }
  }
}
