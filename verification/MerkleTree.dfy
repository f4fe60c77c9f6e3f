/** The tree a Merkle root stands for, defined from the top: a subtree joins the roots of its two
    halves, and one with an empty right half joins the root of its left half with itself. */
module MerkleTree {
  import opened Merkle

  function Leaves(height: nat): nat {
    if height == 0 then 1 else 2 * Leaves(height - 1)
  }

  ghost function Tree<D(!new)>(hash: (D, D) -> D, height: nat, s: seq<D>): D
    requires 0 < |s| <= Leaves(height)
  {
    if height == 0 then s[0]
    else
      var half := Leaves(height - 1);
      if |s| <= half then
        var left := Tree(hash, height - 1, s);
        hash(left, left)
      else
        hash(Tree(hash, height - 1, s[..half]), Tree(hash, height - 1, s[half..]))
  }

  /** The next level of the halving loop. */
  ghost function Parents<D(!new)>(hash: (D, D) -> D, s: seq<D>): seq<D> {
    Pairs(hash, Padded(s))
  }

  lemma ParentsSize<D(!new)>(hash: (D, D) -> D, s: seq<D>)
    ensures |Parents(hash, s)| == (|s| + 1) / 2
  {
  }

  lemma ParentsSplit<D(!new)>(hash: (D, D) -> D, s: seq<D>, k: nat)
    requires 2 * k < |s|
    ensures |Parents(hash, s)| == (|s| + 1) / 2
    ensures Parents(hash, s)[..k] == Parents(hash, s[..2 * k]) && Parents(hash, s)[k..] == Parents(hash, s[2 * k..])
  {
    hide Pairs;
    var left, right := s[..2 * k], s[2 * k..];
    assert Padded(left) == left && Padded(s) == left + Padded(right);
    PairsSplit(hash, left, Padded(right));
  }

  lemma PairsSplit<D(!new)>(hash: (D, D) -> D, s: seq<D>, t: seq<D>)
    requires |s| % 2 == 0
    ensures Pairs(hash, s + t)[..|s| / 2] == Pairs(hash, s) && Pairs(hash, s + t)[|s| / 2..] == Pairs(hash, t)
  {
    hide Pairs;
    var all, k := s + t, |s| / 2;
    forall i | 0 <= i < k ensures Pairs(hash, all)[i] == Pairs(hash, s)[i] {
      assert all[2 * i] == s[2 * i] && all[2 * i + 1] == s[2 * i + 1];
    }
    forall i | 0 <= i < |t| / 2 ensures Pairs(hash, all)[k + i] == Pairs(hash, t)[i] {
      assert all[2 * (k + i)] == t[2 * i] && all[2 * (k + i) + 1] == t[2 * i + 1];
    }
  }

  /** A tree over a level is the tree one lower over the next level. */
  lemma {:induction false} TreeOverParents<D(!new)>(hash: (D, D) -> D, height: nat, s: seq<D>)
    requires height > 0 && 0 < |s| <= Leaves(height)
    ensures 0 < |Parents(hash, s)| <= Leaves(height - 1)
    ensures Tree(hash, height, s) == Tree(hash, height - 1, Parents(hash, s))
    decreases height
  {
    hide Parents, Tree;
    ParentsSize(hash, s);
    if height == 1 {
      TreeOfOnePair(hash, s);
    } else {
      var half, next := Leaves(height - 1), Parents(hash, s);
      if |s| <= half {
        TreeOverParents(hash, height - 1, s);
        TreeSplits(hash, height, s);
        TreeSplits(hash, height - 1, next);
      } else {
        ParentsSplit(hash, s, half / 2);
        TreeOverParents(hash, height - 1, s[..half]);
        TreeOverParents(hash, height - 1, s[half..]);
        TreeSplits(hash, height, s);
        TreeSplits(hash, height - 1, next);
      }
    }
  }

  lemma TreeSplits<D(!new)>(hash: (D, D) -> D, height: nat, s: seq<D>)
    requires height > 0 && 0 < |s| <= Leaves(height)
    ensures var half := Leaves(height - 1);
            && (|s| <= half ==> Tree(hash, height, s) == hash(Tree(hash, height - 1, s), Tree(hash, height - 1, s)))
            && (|s| > half ==>
                  Tree(hash, height, s) == hash(Tree(hash, height - 1, s[..half]), Tree(hash, height - 1, s[half..])))
  {
  }

  lemma TreeOfOnePair<D(!new)>(hash: (D, D) -> D, s: seq<D>)
    requires 0 < |s| <= 2
    ensures Leaves(1) == 2 && |Parents(hash, s)| == 1 && Tree(hash, 1, s) == Tree(hash, 0, Parents(hash, s))
  {
    assert Leaves(0) == 1;
  }

  lemma RootOfOne<D(!new)>(hash: (D, D) -> D, zero: D, s: seq<D>)
    requires |s| == 1
    ensures Leaves(0) == 1 && Root(hash, zero, s) == Tree(hash, 0, s)
  {
  }

  lemma RootOverParents<D(!new)>(hash: (D, D) -> D, zero: D, s: seq<D>)
    requires |s| > 1
    ensures Root(hash, zero, s) == Root(hash, zero, Parents(hash, s))
  {
    hide Root;
    RootUnfolds(hash, zero, s);
  }

  /** The root of a list is the root of the lowest tree that holds it. */
  lemma {:induction false} RootIsTree<D(!new)>(hash: (D, D) -> D, zero: D, height: nat, s: seq<D>)
    requires 0 < |s| <= Leaves(height) && (height > 0 ==> |s| > Leaves(height - 1))
    ensures Root(hash, zero, s) == Tree(hash, height, s)
    decreases height
  {
    hide Root, Tree, Parents;
    if height == 0 {
      RootOfOne(hash, zero, s);
    } else {
      TreeOverParents(hash, height, s);
      ParentsSize(hash, s);
      RootOverParents(hash, zero, s);
      RootIsTree(hash, zero, height - 1, Parents(hash, s));
    }
  }
}
