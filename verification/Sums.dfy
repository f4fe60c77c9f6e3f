/** Sums of real numbers over finite sets of accounts. */
module Sums {

  type Name = nat

  ghost function Sum(s: set<Name>, f: Name -> real): real
    decreases |s|
  {
    if s == {} then 0.0
    else
      var x :| x in s;
      f(x) + Sum(s - {x}, f)
  }

  lemma {:induction false} SumExtract(s: set<Name>, f: Name -> real, x: Name)
    requires x in s
    ensures Sum(s, f) == f(x) + Sum(s - {x}, f)
    decreases |s|
  {
    var y :| y in s && Sum(s, f) == f(y) + Sum(s - {y}, f);
    if y != x {
      SumExtract(s - {y}, f, x);
      SumExtract(s - {x}, f, y);
      assert s - {y} - {x} == s - {x} - {y};
    }
  }

  lemma {:induction false} SumAgrees(s: set<Name>, f: Name -> real, g: Name -> real)
    requires forall x :: x in s ==> f(x) == g(x)
    ensures Sum(s, f) == Sum(s, g)
    decreases |s|
  {
    if s != {} {
      var x :| x in s;
      SumExtract(s, f, x);
      SumExtract(s, g, x);
      SumAgrees(s - {x}, f, g);
    }
  }

  /** Changing one summand changes the sum by the difference. */
  lemma SumChangesAt(s: set<Name>, f: Name -> real, g: Name -> real, x: Name)
    requires x in s && forall y :: y in s && y != x ==> f(y) == g(y)
    ensures Sum(s, g) == Sum(s, f) - f(x) + g(x)
  {
    SumExtract(s, f, x);
    SumExtract(s, g, x);
    SumAgrees(s - {x}, f, g);
  }

  lemma {:induction false} SumIsNonNegative(s: set<Name>, f: Name -> real)
    requires forall x :: x in s ==> f(x) >= 0.0
    ensures Sum(s, f) >= 0.0
    decreases |s|
  {
    if s != {} {
      var x :| x in s;
      SumExtract(s, f, x);
      SumIsNonNegative(s - {x}, f);
    }
  }

  lemma {:induction false} SumOfZeros(s: set<Name>, f: Name -> real)
    requires forall x :: x in s ==> f(x) == 0.0
    ensures Sum(s, f) == 0.0
    decreases |s|
  {
    if s != {} {
      var x :| x in s;
      SumExtract(s, f, x);
      SumOfZeros(s - {x}, f);
    }
  }

  lemma SumInsert(s: set<Name>, f: Name -> real, g: Name -> real, x: Name)
    requires x !in s && forall y :: y in s ==> f(y) == g(y)
    ensures Sum(s + {x}, g) == Sum(s, f) + g(x)
  {
    SumExtract(s + {x}, g, x);
    assert s + {x} - {x} == s;
    SumAgrees(s, f, g);
  }
}
