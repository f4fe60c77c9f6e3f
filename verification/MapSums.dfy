/** Sums of an integer quantity over the rows of a table. */
module MapSums {

  ghost function SetSum<K>(s: set<K>, f: K -> int): int
    decreases |s|
  {
    if s == {} then 0
    else
      var x :| x in s;
      f(x) + SetSum(s - {x}, f)
  }

  lemma {:induction false} SetSumExtract<K>(s: set<K>, f: K -> int, x: K)
    requires x in s
    ensures SetSum(s, f) == f(x) + SetSum(s - {x}, f)
    decreases |s|
  {
    var y :| y in s && SetSum(s, f) == f(y) + SetSum(s - {y}, f);
    if y != x {
      SetSumExtract(s - {y}, f, x);
      SetSumExtract(s - {x}, f, y);
      assert s - {y} - {x} == s - {x} - {y};
    }
  }

  lemma {:induction false} SetSumAgrees<K>(s: set<K>, f: K -> int, g: K -> int)
    requires forall x :: x in s ==> f(x) == g(x)
    ensures SetSum(s, f) == SetSum(s, g)
    decreases |s|
  {
    if s != {} {
      var x :| x in s;
      SetSumExtract(s, f, x);
      SetSumExtract(s, g, x);
      SetSumAgrees(s - {x}, f, g);
    }
  }

  lemma {:induction false} SetSumIsNonNegative<K>(s: set<K>, f: K -> int)
    requires forall x :: x in s ==> f(x) >= 0
    ensures SetSum(s, f) >= 0
    decreases |s|
  {
    if s != {} {
      var x :| x in s;
      SetSumExtract(s, f, x);
      SetSumIsNonNegative(s - {x}, f);
    }
  }

  /** The quantity of a row; a missing row counts nothing. */
  ghost function At<K, V>(m: map<K, V>, k: K, f: (K, V) -> int): int {
    if k in m then f(k, m[k]) else 0
  }

  ghost function MapSum<K, V>(m: map<K, V>, f: (K, V) -> int): int {
    SetSum(m.Keys, k => At(m, k, f))
  }

  lemma MapSumSplits<K, V>(m: map<K, V>, k: K, f: (K, V) -> int)
    ensures MapSum(m, f) == At(m, k, f) + SetSum(m.Keys - {k}, x => At(m, x, f))
  {
    if k in m {
      SetSumExtract(m.Keys, x => At(m, x, f), k);
    } else {
      assert m.Keys - {k} == m.Keys;
    }
  }

  /** Two tables with the same rows but for one. */
  ghost predicate SameBut<K, V>(m: map<K, V>, m': map<K, V>, k: K) {
    && m.Keys - {k} == m'.Keys - {k}
    && forall x :: x in m && x != k ==> x in m' && m'[x] == m[x]
  }

  /** Writing or erasing one row changes the sum by the change of that row. */
  lemma MapSumChanges<K, V>(m: map<K, V>, m': map<K, V>, k: K, f: (K, V) -> int)
    requires SameBut(m, m', k)
    ensures MapSum(m', f) == MapSum(m, f) - At(m, k, f) + At(m', k, f)
  {
    MapSumSplits(m, k, f);
    MapSumSplits(m', k, f);
    SetSumAgrees(m.Keys - {k}, x => At(m, x, f), x => At(m', x, f));
  }

  lemma MapSumIsNonNegative<K, V>(m: map<K, V>, f: (K, V) -> int)
    requires forall k :: k in m ==> f(k, m[k]) >= 0
    ensures MapSum(m, f) >= 0
  {
    SetSumIsNonNegative(m.Keys, k => At(m, k, f));
  }
}
