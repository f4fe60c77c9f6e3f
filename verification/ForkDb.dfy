/** The fork database: the tree of blocks that are not yet final, the confirmations producers
    send for them, and the numbers that say up to which block each of them is final.

    Block ids stand for collision-free hashes; checking a signature is a parameter. */
module ForkDb {
  import opened Options

  type BlockId = nat
  type Producer = nat

  datatype Block = Block(
    previous: BlockId,
    num: nat,
    producers: seq<Producer>,
    confirmations: seq<Producer>,
    bft: nat,
    dpos: nat,
    inCurrentChain: bool)

  /** The number of confirmations that makes a block final: more than two thirds. */
  function Threshold(producers: nat): nat {
    producers * 2 / 3 + 1
  }

  predicate HasQuorum(b: Block) {
    |b.confirmations| >= Threshold(|b.producers|)
  }

  // ----- the tree of blocks -----

  /** What the tree remembers of a block: its place and whether it gathered a quorum. */
  datatype Node = Node(previous: BlockId, num: nat, quorum: bool)

  type Tree = map<BlockId, Node>

  ghost function NodeOf(b: Block): Node {
    Node(b.previous, b.num, HasQuorum(b))
  }

  ghost function TreeOf(index: map<BlockId, Block>): Tree {
    map id | id in index :: NodeOf(index[id])
  }

  ghost predicate Linked(t: Tree) {
    forall id :: id in t && t[id].previous in t ==> t[id].num == t[t[id].previous].num + 1
  }

  /** `id` is `a` or is built, directly or indirectly, on `a`. */
  ghost predicate Descends(t: Tree, a: BlockId, id: BlockId)
    requires Linked(t) && id in t
    decreases t[id].num
  {
    id == a || (t[id].previous in t && Descends(t, a, t[id].previous))
  }

  /** The number of the closest block with a quorum on the way from `id` to the root. */
  ghost function ClosestQuorum(t: Tree, base: nat, id: BlockId): nat
    requires Linked(t) && id in t
    decreases t[id].num
  {
    if t[id].quorum then t[id].num
    else if t[id].previous in t then ClosestQuorum(t, base, t[id].previous)
    else base
  }

  ghost predicate AboveBase(t: Tree, base: nat) {
    forall id :: id in t ==> base <= t[id].num
  }

  lemma {:induction false} AncestorIsLower(t: Tree, a: BlockId, id: BlockId)
    requires Linked(t) && id in t && Descends(t, a, id)
    ensures a in t && t[a].num <= t[id].num && (t[a].num == t[id].num ==> a == id)
    decreases t[id].num
  {
    if id != a {
      AncestorIsLower(t, a, t[id].previous);
    }
  }

  lemma {:induction false} DescendsIsTransitive(t: Tree, a: BlockId, b: BlockId, c: BlockId)
    requires Linked(t) && b in t && c in t && Descends(t, a, b) && Descends(t, b, c)
    ensures Descends(t, a, c)
    decreases t[c].num
  {
    if b != c {
      DescendsIsTransitive(t, a, b, t[c].previous);
    }
  }

  /** The closest quorum is the largest block number with a quorum among a block and its
      ancestors, or the base where there is none. */
  lemma {:induction false} ClosestQuorumIsLargest(t: Tree, base: nat, id: BlockId)
    requires Linked(t) && id in t && AboveBase(t, base)
    ensures forall a :: a in t && t[a].quorum && Descends(t, a, id) ==> t[a].num <= ClosestQuorum(t, base, id)
    ensures ClosestQuorum(t, base, id) == base
         || exists a :: a in t && t[a].quorum && Descends(t, a, id) && t[a].num == ClosestQuorum(t, base, id)
    ensures base <= ClosestQuorum(t, base, id) <= t[id].num
    decreases t[id].num
  {
    if t[id].quorum {
      forall a | a in t && t[a].quorum && Descends(t, a, id)
        ensures t[a].num <= t[id].num
      {
        AncestorIsLower(t, a, id);
      }
      assert Descends(t, id, id);
    } else if t[id].previous in t {
      var p := t[id].previous;
      ClosestQuorumIsLargest(t, base, p);
      forall a | a in t && t[a].quorum && Descends(t, a, id)
        ensures t[a].num <= ClosestQuorum(t, base, id)
      {
        assert Descends(t, a, p);
      }
      if ClosestQuorum(t, base, p) != base {
        var a :| a in t && t[a].quorum && Descends(t, a, p) && t[a].num == ClosestQuorum(t, base, p);
        assert Descends(t, a, id);
      }
    }
  }

  /** When `a` gathers a quorum, exactly the blocks built on it with a lower number rise to it. */
  lemma {:induction false} QuorumRaisesDescendants(t: Tree, base: nat, a: BlockId, id: BlockId)
    requires Linked(t) && id in t && a in t && AboveBase(t, base)
    requires Linked(t[a := t[a].(quorum := true)])
    ensures ClosestQuorum(t[a := t[a].(quorum := true)], base, id) ==
            var before := ClosestQuorum(t, base, id);
            if Descends(t, a, id) && before < t[a].num then t[a].num else before
    decreases t[id].num
  {
    var t' := t[a := t[a].(quorum := true)];
    ClosestQuorumIsLargest(t, base, id);
    if id != a {
      if t[id].quorum {
        if Descends(t, a, id) {
          AncestorIsLower(t, a, id);
        }
      } else if t[id].previous in t {
        QuorumRaisesDescendants(t, base, a, t[id].previous);
      } else {
        assert t'[id].previous !in t';
      }
    }
  }

  // ----- raising the final block number of descendants -----

  /** `after` differs from `before` only in final block numbers, which rise to `n` on some
      blocks built on `root`. */
  ghost predicate Raised(before: map<BlockId, Block>, after: map<BlockId, Block>, n: nat, root: BlockId)
    requires Linked(TreeOf(before))
  {
    && after.Keys == before.Keys
    && forall id :: id in before ==>
         || after[id] == before[id]
         || (before[id].bft < n && after[id] == before[id].(bft := n) && Descends(TreeOf(before), root, id))
  }

  /** Except under the blocks in `pending`, no block has a lower final number than its parent. */
  ghost predicate Ascending(index: map<BlockId, Block>, pending: set<BlockId>) {
    forall id :: id in index && index[id].previous in index && index[id].previous !in pending ==>
      index[index[id].previous].bft <= index[id].bft
  }

  ghost predicate AllAt(index: map<BlockId, Block>, ids: set<BlockId>, n: nat, root: BlockId)
    requires Linked(TreeOf(index))
  {
    forall id :: id in ids ==> id in index && index[id].bft == n && Descends(TreeOf(index), root, id)
  }

  /** The blocks the traversal may still raise. */
  ghost function Low(index: map<BlockId, Block>, n: nat): set<BlockId> {
    set id | id in index && index[id].bft < n
  }

  lemma TreeIgnoresFinality(before: map<BlockId, Block>, after: map<BlockId, Block>)
    requires after.Keys == before.Keys
    requires forall id :: id in before ==> after[id] == before[id].(bft := after[id].bft)
    ensures TreeOf(after) == TreeOf(before)
  {
  }

  lemma RaiseOne(before: map<BlockId, Block>, index: map<BlockId, Block>, n: nat, root: BlockId, c: BlockId)
    requires Linked(TreeOf(before)) && Raised(before, index, n, root)
    requires c in index && index[c].bft < n && Descends(TreeOf(before), root, c)
    ensures Raised(before, index[c := index[c].(bft := n)], n, root)
    ensures TreeOf(index) == TreeOf(before)
    ensures TreeOf(index[c := index[c].(bft := n)]) == TreeOf(before)
    ensures Low(index[c := index[c].(bft := n)], n) == Low(index, n) - {c}
  {
    hide Descends, Linked, HasQuorum;
    TreeIgnoresFinality(before, index);
    TreeIgnoresFinality(before, index[c := index[c].(bft := n)]);
  }

  lemma {:induction false} DescendantsReachRoot(index: map<BlockId, Block>, root: BlockId, id: BlockId)
    requires Linked(TreeOf(index)) && id in index && root in index
    requires Ascending(index, {}) && Descends(TreeOf(index), root, id)
    ensures index[root].bft <= index[id].bft
    decreases index[id].num
  {
    if id != root {
      assert TreeOf(index)[id].previous == index[id].previous;
      DescendantsReachRoot(index, root, index[id].previous);
    }
  }

  /** The state of the traversal: `pending` are the blocks already raised whose children are
      still to be visited. */
  ghost predicate Wave(before: map<BlockId, Block>, index: map<BlockId, Block>, n: nat, root: BlockId,
                       pending: set<BlockId>)
  {
    && Linked(TreeOf(before))
    && Raised(before, index, n, root)
    && TreeOf(index) == TreeOf(before)
    && root in index && index[root].bft == n
    && Ascending(index, pending)
    && AllAt(index, pending, n, root)
  }

  lemma ChildDescends(index: map<BlockId, Block>, root: BlockId, i: BlockId, c: BlockId)
    requires Linked(TreeOf(index)) && c in index && index[c].previous == i && i in index
    requires Descends(TreeOf(index), root, i)
    ensures Descends(TreeOf(index), root, c)
  {
    assert TreeOf(index)[c].previous == i;
  }

  lemma WaveRaises(before: map<BlockId, Block>, index: map<BlockId, Block>, n: nat, root: BlockId,
                   pending: set<BlockId>, i: BlockId, c: BlockId)
    requires Wave(before, index, n, root, pending) && i in pending
    requires c in index && index[c].previous == i && index[c].bft < n
    ensures Wave(before, index[c := index[c].(bft := n)], n, root, pending + {c})
    ensures Low(index[c := index[c].(bft := n)], n) < Low(index, n)
  {
    hide Descends, Linked, HasQuorum, TreeOf;
    ChildDescends(index, root, i, c);
    RaiseOne(before, index, n, root, c);
  }

  lemma WaveMovesOn(before: map<BlockId, Block>, index: map<BlockId, Block>, n: nat, root: BlockId,
                    pending: set<BlockId>, rest: set<BlockId>, i: BlockId)
    requires Wave(before, index, n, root, pending) && i in pending
    requires pending - {i} <= rest <= pending
    requires forall id :: id in index && index[id].previous == i ==> index[id].bft >= n
    ensures Wave(before, index, n, root, rest)
  {
    hide Descends, Linked, HasQuorum, TreeOf;
  }

  ghost function ToSet(s: seq<BlockId>): set<BlockId> {
    set i | 0 <= i < |s| :: s[i]
  }

  lemma ToSetOfAppended(s: seq<BlockId>, c: BlockId)
    ensures ToSet(s + [c]) == ToSet(s) + {c}
  {
    assert forall x :: x in ToSet(s) ==> x in ToSet(s + [c]) by {
      forall x | x in ToSet(s)
        ensures x in ToSet(s + [c])
      {
        var i :| 0 <= i < |s| && s[i] == x;
        assert (s + [c])[i] == x;
      }
    }
    assert (s + [c])[|s|] == c;
  }

  lemma ToSetOfTail(s: seq<BlockId>, k: nat)
    requires k < |s|
    ensures ToSet(s[k..]) == {s[k]} + ToSet(s[k + 1..])
  {
    forall x | x in ToSet(s[k + 1..])
      ensures x in ToSet(s[k..])
    {
      var i :| 0 <= i < |s[k + 1..]| && s[k + 1..][i] == x;
      assert s[k..][i + 1] == x;
    }
    forall x | x in ToSet(s[k..])
      ensures x in {s[k]} + ToSet(s[k + 1..])
    {
      var i :| 0 <= i < |s[k..]| && s[k..][i] == x;
      if i > 0 {
        assert s[k + 1..][i - 1] == x;
      }
    }
    assert s[k..][0] == s[k];
  }

  lemma EmptyToSet()
    ensures ToSet([]) == {}
  {
  }

  // ----- what holds of the database in every reachable state -----

  /** The blocks known so far, `pruned` being those already reported irreversible and freed. */
  ghost predicate WellFormed(tree: Tree, base: nat, index: map<BlockId, Block>, pruned: seq<BlockId>) {
    && Linked(tree)
    && AboveBase(tree, base)
    && SingleRoot(tree)
    && (forall id :: id in index ==> id in tree && tree[id] == NodeOf(index[id]))
    && (forall id :: id in index ==> ConfirmationsValid(index[id]))
    && (forall id :: id in tree && id !in index ==> id in pruned)
    && PrunedChain(tree, index, pruned)
  }

  ghost predicate SingleRoot(tree: Tree) {
    forall r, id :: r in tree && tree[r].previous !in tree && id in tree ==>
      tree[r].num <= tree[id].num && (tree[id].previous !in tree ==> id == r)
  }

  /** The blocks reported irreversible form one chain, below every block still in the database. */
  ghost predicate PrunedChain(tree: Tree, index: map<BlockId, Block>, pruned: seq<BlockId>) {
    && (forall i :: 0 <= i < |pruned| ==> pruned[i] in tree && pruned[i] !in index)
    && (forall i :: 0 < i < |pruned| ==> tree[pruned[i]].previous == pruned[i - 1])
    && (forall i, id :: 0 <= i < |pruned| && id in index ==> tree[pruned[i]].num <= index[id].num)
  }

  /** No block beside the last irreversible one is left, and no block built on such a block. */
  ghost predicate Settled(tree: Tree, index: map<BlockId, Block>, pruned: seq<BlockId>) {
    pruned != [] ==>
      var last := pruned[|pruned| - 1];
      last in tree && forall id :: id in index ==>
        tree[last].num < index[id].num && (index[id].num == tree[last].num + 1 ==> index[id].previous == last)
  }

  /** Confirmations come from distinct producers of the block's schedule. */
  predicate ConfirmationsValid(b: Block) {
    && (forall p :: p in b.confirmations ==> p in b.producers)
    && (forall i, j :: 0 <= i < j < |b.confirmations| ==> b.confirmations[i] != b.confirmations[j])
  }

  /** The final block number of every block is exactly the largest number with a quorum among
      the block and its ancestors. */
  ghost predicate Exact(tree: Tree, base: nat, index: map<BlockId, Block>) {
    && Linked(tree)
    && forall id :: id in index ==> id in tree && index[id].bft == ClosestQuorum(tree, base, id)
  }

  ghost predicate Sound(tree: Tree, base: nat, index: map<BlockId, Block>, pruned: seq<BlockId>) {
    WellFormed(tree, base, index, pruned) && Exact(tree, base, index) && Settled(tree, index, pruned)
  }

  lemma IndexIsLinked(tree: Tree, base: nat, index: map<BlockId, Block>, pruned: seq<BlockId>)
    requires WellFormed(tree, base, index, pruned)
    ensures Linked(TreeOf(index))
  {
  }

  lemma ExactIsAscending(tree: Tree, base: nat, index: map<BlockId, Block>, pruned: seq<BlockId>)
    requires WellFormed(tree, base, index, pruned) && Exact(tree, base, index)
    ensures Ascending(index, {})
  {
    hide ClosestQuorum, Descends, SingleRoot, PrunedChain;
    forall id | id in index && index[id].previous in index
      ensures index[index[id].previous].bft <= index[id].bft
    {
      ClosestQuorumOfChild(tree, base, id);
    }
  }

  lemma ClosestQuorumOfChild(tree: Tree, base: nat, id: BlockId)
    requires Linked(tree) && AboveBase(tree, base) && id in tree && tree[id].previous in tree
    ensures ClosestQuorum(tree, base, tree[id].previous) <= ClosestQuorum(tree, base, id)
  {
    ClosestQuorumIsLargest(tree, base, tree[id].previous);
  }

  /** Between blocks of the database, ancestry does not depend on the blocks already freed. */
  lemma {:induction false} AncestryStaysInside(tree: Tree, base: nat, index: map<BlockId, Block>,
                                               pruned: seq<BlockId>, a: BlockId, id: BlockId)
    requires WellFormed(tree, base, index, pruned) && a in index && id in index
    requires Linked(TreeOf(index))
    ensures Descends(tree, a, id) <==> Descends(TreeOf(index), a, id)
    decreases tree[id].num
  {
    assert TreeOf(index)[id] == tree[id];
    if id != a {
      var p := tree[id].previous;
      if p in index {
        AncestryStaysInside(tree, base, index, pruned, a, p);
      } else if p in tree && Descends(tree, a, p) {
        AncestorIsLower(tree, a, p);
      }
    }
  }

  /** The final block number of a block once `a` is final. */
  ghost function RaisedNumber(index: map<BlockId, Block>, a: BlockId, id: BlockId): nat
    requires Linked(TreeOf(index)) && a in index && id in index
  {
    if Descends(TreeOf(index), a, id) && index[id].bft < index[a].num then index[a].num else index[id].bft
  }

  /** Raising all descendants of a block that just gathered its quorum keeps the final block
      numbers exact. */
  lemma RaisedIsExact(tree: Tree, base: nat, index: map<BlockId, Block>, pruned: seq<BlockId>,
                      a: BlockId, index': map<BlockId, Block>)
    requires WellFormed(tree, base, index, pruned) && a in index
    requires Linked(TreeOf(index)) && Linked(tree[a := tree[a].(quorum := true)])
    requires Exact(tree, base, index)
    requires index'.Keys == index.Keys
    requires forall id :: id in index ==> index'[id].bft == RaisedNumber(index, a, id)
    ensures Exact(tree[a := tree[a].(quorum := true)], base, index')
  {
    hide ClosestQuorum, SingleRoot, PrunedChain, AboveBase, Linked, TreeOf;
    forall id | id in index
      ensures index'[id].bft == ClosestQuorum(tree[a := tree[a].(quorum := true)], base, id)
    {
      AncestryStaysInside(tree, base, index, pruned, a, id);
      QuorumRaisesDescendants(tree, base, a, id);
    }
  }

  // ----- inserting and removing blocks -----

  /** A part of a tree that contains, with every block, its parent if that is known at all. */
  ghost predicate Upper(t: Tree, t': Tree) {
    && (forall x :: x in t ==> x in t' && t'[x] == t[x])
    && (forall x :: x in t && t[x].previous in t' ==> t[x].previous in t)
  }

  lemma {:induction false} ClosestQuorumOfUpper(t: Tree, t': Tree, base: nat, x: BlockId)
    requires Upper(t, t') && Linked(t) && Linked(t') && x in t
    ensures ClosestQuorum(t', base, x) == ClosestQuorum(t, base, x)
    decreases t[x].num
  {
    if !t[x].quorum && t[x].previous in t {
      ClosestQuorumOfUpper(t, t', base, t[x].previous);
    }
  }

  /** Ids stand for collision-free hashes: an id names one predecessor, and a new block is not
      the predecessor of a block already known. */
  ghost predicate CollisionFree(tree: Tree, id: BlockId, previous: BlockId) {
    && (id in tree ==> tree[id].previous == previous)
    && (id !in tree ==> forall x :: x in tree ==> tree[x].previous != id)
  }

  ghost predicate Extends(index: map<BlockId, Block>, previous: BlockId, b: Block) {
    && previous in index && b.previous == previous && b.num == index[previous].num + 1
    && b.confirmations == [] && b.bft == index[previous].bft
  }

  lemma InsertedIsNew(tree: Tree, base: nat, index: map<BlockId, Block>, pruned: seq<BlockId>, id: BlockId, b: Block)
    requires WellFormed(tree, base, index, pruned) && CollisionFree(tree, id, b.previous)
    requires id !in index && Extends(index, b.previous, b)
    ensures id !in tree
  {
  }

  lemma InsertedTree(tree: Tree, base: nat, id: BlockId, n: Node)
    requires Linked(tree) && AboveBase(tree, base) && SingleRoot(tree) && id !in tree
    requires n.previous in tree && n.num == tree[n.previous].num + 1
    requires forall x :: x in tree ==> tree[x].previous != id
    ensures Linked(tree[id := n]) && AboveBase(tree[id := n], base) && SingleRoot(tree[id := n])
    ensures Upper(tree, tree[id := n])
  {
    hide SingleRoot;
    InsertedRoot(tree, id, n);
  }

  lemma RootsAreEqual(tree: Tree, r: BlockId, x: BlockId)
    requires SingleRoot(tree) && r in tree && tree[r].previous !in tree && x in tree
    ensures tree[r].num <= tree[x].num && (tree[x].previous !in tree ==> x == r)
  {
  }

  lemma InsertedRoot(tree: Tree, id: BlockId, n: Node)
    requires SingleRoot(tree) && id !in tree && n.previous in tree && n.num == tree[n.previous].num + 1
    requires forall x :: x in tree ==> tree[x].previous != id
    ensures SingleRoot(tree[id := n])
  {
    var t := tree[id := n];
    forall r, x | r in t && t[r].previous !in t && x in t
      ensures t[r].num <= t[x].num && (t[x].previous !in t ==> x == r)
    {
      RootsAreEqual(tree, r, if x == id then n.previous else x);
    }
  }

  lemma InsertedIndex(tree: Tree, index: map<BlockId, Block>, pruned: seq<BlockId>, id: BlockId, b: Block, n: Node)
    requires PrunedChain(tree, index, pruned) && Settled(tree, index, pruned)
    requires id !in tree && Extends(index, b.previous, b)
    ensures PrunedChain(tree[id := n], index[id := b], pruned)
    ensures Settled(tree[id := n], index[id := b], pruned)
  {
  }

  /** Adding a block on top of a known one keeps every final block number exact. */
  lemma InsertKeepsSound(tree: Tree, base: nat, index: map<BlockId, Block>, pruned: seq<BlockId>, id: BlockId, b: Block)
    requires Sound(tree, base, index, pruned) && CollisionFree(tree, id, b.previous)
    requires id !in index && Extends(index, b.previous, b)
    ensures Sound(tree[id := NodeOf(b)], base, index[id := b], pruned)
  {
    hide ClosestQuorum, Linked, AboveBase, SingleRoot, PrunedChain, Settled;
    InsertedIsNew(tree, base, index, pruned, id, b);
    var t := tree[id := NodeOf(b)];
    InsertedTree(tree, base, id, NodeOf(b));
    InsertedIndex(tree, index, pruned, id, b, NodeOf(b));
    forall x | x in index
      ensures ClosestQuorum(t, base, x) == ClosestQuorum(tree, base, x)
    {
      ClosestQuorumOfUpper(tree, t, base, x);
    }
    InheritsQuorum(t, base, id);
  }

  lemma InheritsQuorum(t: Tree, base: nat, id: BlockId)
    requires Linked(t) && id in t && !t[id].quorum && t[id].previous in t
    ensures ClosestQuorum(t, base, id) == ClosestQuorum(t, base, t[id].previous)
  {
  }

  /** `x` is `a`, or follows from `a` along the chain of predecessors; `a` need not be known. */
  ghost predicate BuiltOn(t: Tree, a: BlockId, x: BlockId)
    requires Linked(t) && x in t
    decreases t[x].num
  {
    x == a || t[x].previous == a || (t[x].previous in t && BuiltOn(t, a, t[x].previous))
  }

  lemma {:induction false} BuiltOnIsDescends(t: Tree, a: BlockId, x: BlockId)
    requires Linked(t) && x in t && a in t
    ensures BuiltOn(t, a, x) <==> Descends(t, a, x)
    decreases t[x].num
  {
    if x != a && t[x].previous in t {
      BuiltOnIsDescends(t, a, t[x].previous);
    }
  }

  ghost function Without(index: map<BlockId, Block>, gone: set<BlockId>): map<BlockId, Block> {
    map x | x in index && x !in gone :: index[x]
  }

  ghost function WithoutNodes(t: Tree, gone: set<BlockId>): Tree {
    map x | x in t && x !in gone :: t[x]
  }

  /** With a block of `gone`, every block built on it is in `gone`. */
  ghost predicate ClosedUpwards(index: map<BlockId, Block>, gone: set<BlockId>) {
    forall x :: x in index && index[x].previous in gone ==> x in gone
  }

  lemma RemovedTree(tree: Tree, base: nat, gone: set<BlockId>)
    requires Linked(tree) && AboveBase(tree, base) && SingleRoot(tree)
    requires forall x :: x in tree && tree[x].previous in gone && tree[x].previous in tree ==> x in gone
    ensures Linked(WithoutNodes(tree, gone)) && AboveBase(WithoutNodes(tree, gone), base)
    ensures SingleRoot(WithoutNodes(tree, gone))
    ensures Upper(WithoutNodes(tree, gone), tree)
  {
  }

  lemma RemovedIsClosed(tree: Tree, base: nat, index: map<BlockId, Block>, pruned: seq<BlockId>, gone: set<BlockId>)
    requires WellFormed(tree, base, index, pruned)
    requires ClosedUpwards(index, gone)
    ensures forall x :: x in tree && tree[x].previous in gone * index.Keys ==> x in gone * index.Keys
  {
  }

  lemma RemovedIndex(tree: Tree, index: map<BlockId, Block>, pruned: seq<BlockId>, gone: set<BlockId>)
    requires PrunedChain(tree, index, pruned)
    ensures PrunedChain(WithoutNodes(tree, gone * index.Keys), Without(index, gone), pruned)
    ensures Settled(tree, index, pruned) ==>
              Settled(WithoutNodes(tree, gone * index.Keys), Without(index, gone), pruned)
  {
  }

  lemma RemoveKeepsTree(tree: Tree, base: nat, index: map<BlockId, Block>, pruned: seq<BlockId>, gone: set<BlockId>)
    requires WellFormed(tree, base, index, pruned) && Exact(tree, base, index) && ClosedUpwards(index, gone)
    ensures var t := WithoutNodes(tree, gone * index.Keys);
            WellFormed(t, base, Without(index, gone), pruned) && Exact(t, base, Without(index, gone))
  {
    hide ClosestQuorum, Linked, AboveBase, SingleRoot, PrunedChain, ConfirmationsValid;
    var t := WithoutNodes(tree, gone * index.Keys);
    RemovedIsClosed(tree, base, index, pruned, gone);
    RemovedTree(tree, base, gone * index.Keys);
    RemovedIndex(tree, index, pruned, gone);
    forall x | x in t
      ensures ClosestQuorum(t, base, x) == ClosestQuorum(tree, base, x)
    {
      ClosestQuorumOfUpper(t, tree, base, x);
    }
  }

  lemma {:induction false} BuiltOnIsGone(index: map<BlockId, Block>, id: BlockId, gone: set<BlockId>, x: BlockId)
    requires Linked(TreeOf(index)) && ClosedUpwards(index, gone) && id in gone && x in index
    requires BuiltOn(TreeOf(index), id, x)
    ensures x in gone
    decreases index[x].num
  {
    assert TreeOf(index)[x] == NodeOf(index[x]);
    if x != id && index[x].previous != id {
      BuiltOnIsGone(index, id, gone, index[x].previous);
    }
  }

  /** The blocks that go when `id` is removed. */
  ghost function Subtree(index: map<BlockId, Block>, id: BlockId): set<BlockId>
    requires Linked(TreeOf(index))
  {
    set x | x in index && BuiltOn(TreeOf(index), id, x)
  }

  /** What the removal loop keeps: `done` are the ids already erased, `queued` the ids found. */
  ghost predicate Removing(index: map<BlockId, Block>, id: BlockId, done: set<BlockId>, queued: set<BlockId>) {
    && Linked(TreeOf(index))
    && id in queued
    && done <= queued
    && (id in done || done == {})
    && (forall x :: x in queued ==> x == id || (x in index && BuiltOn(TreeOf(index), id, x)))
    && (forall x :: x in index && index[x].previous in done ==> x in queued)
    && (forall x :: x in queued && x != id ==> x in index && index[x].previous in done)
  }

  lemma RemovalStep(index: map<BlockId, Block>, id: BlockId, done: set<BlockId>, queued: set<BlockId>, q: BlockId,
                    children: set<BlockId>)
    requires Removing(index, id, done, queued) && q in queued && (done == {} ==> q == id)
    requires children == set x | x in index && x !in done && x != q && index[x].previous == q
    ensures Removing(index, id, done + {q}, queued + children)
    ensures q !in done ==> children !! queued
  {
    hide Linked, BuiltOn;
    forall x | x in children
      ensures x == id || BuiltOn(TreeOf(index), id, x)
    {
      BuiltOnParent(index, id, q, x);
    }
    forall x | x in index && index[x].previous in done + {q}
      ensures x in queued + children
    {
    }
  }

  lemma BuiltOnParent(index: map<BlockId, Block>, id: BlockId, q: BlockId, x: BlockId)
    requires Linked(TreeOf(index)) && x in index && index[x].previous == q
    requires q == id || (q in index && BuiltOn(TreeOf(index), id, q))
    ensures BuiltOn(TreeOf(index), id, x)
  {
    assert TreeOf(index)[x] == NodeOf(index[x]);
  }

  lemma RemovalDone(index: map<BlockId, Block>, id: BlockId, gone: set<BlockId>)
    requires Removing(index, id, gone, gone)
    ensures ClosedUpwards(index, gone)
    ensures gone * index.Keys == Subtree(index, id)
    ensures Without(index, gone) == Without(index, Subtree(index, id))
  {
    hide Linked, BuiltOn;
    forall x | x in index && BuiltOn(TreeOf(index), id, x)
      ensures x in gone
    {
      BuiltOnIsGone(index, id, gone, x);
    }
    forall x | x in gone * index.Keys
      ensures BuiltOn(TreeOf(index), id, x)
    {
      if x == id {
        BuiltOnItself(index, id);
      }
    }
  }

  lemma BuiltOnItself(index: map<BlockId, Block>, id: BlockId)
    requires Linked(TreeOf(index)) && id in index
    ensures BuiltOn(TreeOf(index), id, id)
  {
  }

  predicate Distinct(s: seq<BlockId>) {
    forall i, j :: 0 <= i < j < |s| ==> s[i] != s[j]
  }

  /** Appends the elements of a set in some order. */
  method AppendAll(queue: seq<BlockId>, more: set<BlockId>) returns (r: seq<BlockId>)
    requires Distinct(queue) && ToSet(queue) !! more
    ensures queue <= r && Distinct(r) && ToSet(r) == ToSet(queue) + more
  {
    r := queue;
    var rest := more;
    while rest != {}
      invariant rest <= more && queue <= r && Distinct(r)
      invariant ToSet(r) + rest == ToSet(queue) + more && ToSet(r) !! rest
      decreases rest
    {
      var c :| c in rest;
      ToSetOfAppended(r, c);
      NewIsDistinct(r, c);
      r := r + [c];
      rest := rest - {c};
    }
  }

  lemma NewIsDistinct(s: seq<BlockId>, c: BlockId)
    requires Distinct(s) && c !in ToSet(s)
    ensures Distinct(s + [c])
  {
    forall i | 0 <= i < |s|
      ensures s[i] != c
    {
      assert s[i] in ToSet(s);
    }
  }

  lemma DistinctElement(s: seq<BlockId>, k: nat)
    requires Distinct(s) && k < |s|
    ensures s[k] !in ToSet(s[..k]) && s[k] in ToSet(s)
    ensures ToSet(s[..k + 1]) == ToSet(s[..k]) + {s[k]}
    ensures ToSet(s[..k]) <= ToSet(s)
  {
    assert s[..k + 1] == s[..k] + [s[k]];
    ToSetOfAppended(s[..k], s[k]);
  }

  lemma StartRemoving(index: map<BlockId, Block>, id: BlockId)
    requires Linked(TreeOf(index))
    ensures ToSet([]) == {} && Removing(index, id, {}, ToSet([id])) && Distinct([id])
    ensures index == Without(index, {})
  {
    hide Linked;
    assert [id][0] == id;
  }

  lemma RemovalProgress(index: map<BlockId, Block>, id: BlockId, queue: seq<BlockId>, i: nat,
                        before: map<BlockId, Block>)
    requires i < |queue| && Distinct(queue) && Removing(index, id, ToSet(queue[..i]), ToSet(queue))
    requires before == Without(index, ToSet(queue[..i]))
    requires i > 0 ==> id in ToSet(queue[..i])
    ensures ToSet(queue[..i]) == {} ==> queue[i] == id
    ensures i > 0 ==> |before - {queue[i]}| < |before|
    ensures |before - {queue[i]}| <= |before|
    ensures before - {queue[i]} == Without(index, ToSet(queue[..i + 1]))
    ensures (set c | c in before - {queue[i]} && (before - {queue[i]})[c].previous == queue[i])
         == (set x | x in index && x !in ToSet(queue[..i]) && x != queue[i] && index[x].previous == queue[i])
  {
    hide Linked, BuiltOn, ToSet, Distinct, Without, TreeOf;
    DistinctElement(queue, i);
    WithoutOneMore(index, ToSet(queue[..i]), queue[i]);
    if i > 0 {
      QueuedIsKnown(index, id, ToSet(queue[..i]), ToSet(queue), queue[i]);
    }
  }

  lemma QueuedIsKnown(index: map<BlockId, Block>, id: BlockId, done: set<BlockId>, queued: set<BlockId>, x: BlockId)
    requires Removing(index, id, done, queued) && id in done && x in queued && x !in done
    ensures x in index
  {
  }

  lemma WithoutOneMore(index: map<BlockId, Block>, done: set<BlockId>, x: BlockId)
    requires x !in done
    ensures Without(index, done) - {x} == Without(index, done + {x})
    ensures |Without(index, done) - {x}| <= |Without(index, done)|
    ensures x in index ==> |Without(index, done) - {x}| < |Without(index, done)|
    ensures (set c | c in Without(index, done) - {x} && (Without(index, done) - {x})[c].previous == x)
         == (set c | c in index && c !in done && c != x && index[c].previous == x)
  {
    var before := Without(index, done);
    assert (before - {x}).Keys == before.Keys - {x};
  }

  /** The order of the fork choice: dpos irreversible number, then bft, then block number. */
  predicate NotBetter(a: Block, b: Block) {
    a.dpos < b.dpos || (a.dpos == b.dpos && (a.bft < b.bft || (a.bft == b.bft && a.num <= b.num)))
  }

  predicate IsBest(index: map<BlockId, Block>, h: BlockId) {
    h in index && forall x :: x in index ==> NotBetter(index[x], index[h])
  }

  /** The order by number, blocks of the current chain first. */
  predicate NotOlder(a: Block, b: Block) {
    b.num < a.num || (b.num == a.num && (b.inCurrentChain || !a.inCurrentChain))
  }

  predicate IsOldest(index: map<BlockId, Block>, h: BlockId) {
    h in index && forall x :: x in index ==> NotOlder(index[x], index[h])
  }

  /** The best block has the highest dpos number, among those with it the highest bft number, and
      among those the highest block number. */
  lemma BestIff(index: map<BlockId, Block>, h: BlockId)
    requires h in index
    ensures IsBest(index, h) <==>
              && (forall x :: x in index ==> index[x].dpos <= index[h].dpos)
              && (forall x :: x in index && index[x].dpos == index[h].dpos ==> index[x].bft <= index[h].bft)
              && (forall x :: x in index && index[x].dpos == index[h].dpos && index[x].bft == index[h].bft ==> index[x].num <= index[h].num)
  {
    if IsBest(index, h) {
      forall x | x in index ensures NotBetter(index[x], index[h]) {
      }
    }
  }

  /** The oldest block has the lowest number, and is in the current chain if any block of that number
      is. */
  lemma OldestIff(index: map<BlockId, Block>, h: BlockId)
    requires h in index
    ensures IsOldest(index, h) <==>
              && (forall x :: x in index ==> index[h].num <= index[x].num)
              && ((exists x :: x in index && index[x].num == index[h].num && index[x].inCurrentChain) ==> index[h].inCurrentChain)
  {
    if IsOldest(index, h) {
      forall x | x in index ensures NotOlder(index[x], index[h]) {
      }
    }
  }

  lemma {:induction false} BestExists(index: map<BlockId, Block>, among: set<BlockId>) returns (h: BlockId)
    requires among <= index.Keys && among != {}
    ensures h in among && forall x :: x in among ==> NotBetter(index[x], index[h])
    decreases |among|
  {
    var c :| c in among;
    if among == {c} {
      h := c;
    } else {
      var g := BestExists(index, among - {c});
      h := if NotBetter(index[g], index[c]) then c else g;
      assert forall x :: x in among ==> x == c || x in among - {c};
    }
  }

  lemma {:induction false} OldestExists(index: map<BlockId, Block>, among: set<BlockId>) returns (h: BlockId)
    requires among <= index.Keys && among != {}
    ensures h in among && forall x :: x in among ==> NotOlder(index[x], index[h])
    decreases |among|
  {
    var c :| c in among;
    if among == {c} {
      h := c;
    } else {
      var g := OldestExists(index, among - {c});
      h := if NotOlder(index[g], index[c]) then c else g;
      assert forall x :: x in among ==> x == c || x in among - {c};
    }
  }

  lemma RemoveSubtreeKeepsTree(tree: Tree, base: nat, index: map<BlockId, Block>, pruned: seq<BlockId>, id: BlockId)
    requires WellFormed(tree, base, index, pruned) && Exact(tree, base, index) && Linked(TreeOf(index))
    ensures var gone := Subtree(index, id);
            && WellFormed(WithoutNodes(tree, gone), base, Without(index, gone), pruned)
            && Exact(WithoutNodes(tree, gone), base, Without(index, gone))
            && (Settled(tree, index, pruned) ==> Settled(WithoutNodes(tree, gone), Without(index, gone), pruned))
  {
    hide WellFormed, Exact, Linked, TreeOf, Settled;
    var gone := Subtree(index, id);
    SubtreeIsClosed(index, id);
    assert gone * index.Keys == gone;
    RemoveKeepsTree(tree, base, index, pruned, gone);
    ChainOf(tree, base, index, pruned);
    RemovedIndex(tree, index, pruned, gone);
  }

  lemma ChainOf(tree: Tree, base: nat, index: map<BlockId, Block>, pruned: seq<BlockId>)
    requires WellFormed(tree, base, index, pruned)
    ensures PrunedChain(tree, index, pruned)
  {
  }

  lemma SubtreeIsClosed(index: map<BlockId, Block>, id: BlockId)
    requires Linked(TreeOf(index))
    ensures ClosedUpwards(index, Subtree(index, id))
  {
    hide Linked, BuiltOn;
    forall x | x in index && index[x].previous in Subtree(index, id)
      ensures x in Subtree(index, id)
    {
      BuiltOnParent(index, id, index[x].previous, x);
    }
  }

  lemma {:induction false} ChainNumbers(tree: Tree, base: nat, index: map<BlockId, Block>, pruned: seq<BlockId>, i: nat, j: nat)
    requires WellFormed(tree, base, index, pruned) && i <= j < |pruned|
    ensures tree[pruned[j]].num == tree[pruned[i]].num + (j - i)
  {
    if i < j {
      ChainNumbers(tree, base, index, pruned, i, j - 1);
      assert tree[pruned[j]].previous == pruned[j - 1];
    }
  }

  /** The lowest block follows the last one reported irreversible. */
  lemma LowestFollowsLast(tree: Tree, base: nat, index: map<BlockId, Block>, pruned: seq<BlockId>, h: BlockId)
    requires Sound(tree, base, index, pruned) && h in index && pruned != []
    requires forall x :: x in index ==> index[h].num <= index[x].num
    ensures tree[h].previous == pruned[|pruned| - 1]
  {
    hide ClosestQuorum, Exact, AboveBase;
    var last := pruned[|pruned| - 1];
    var p := tree[h].previous;
    assert tree[h] == NodeOf(index[h]) && tree[last].num < tree[h].num;
    assert p in tree;
    if p !in index {
      var i :| 0 <= i < |pruned| && pruned[i] == p;
      ChainNumbers(tree, base, index, pruned, i, |pruned| - 1);
    }
  }

  lemma EraseKeepsTree(tree: Tree, base: nat, index: map<BlockId, Block>, pruned: seq<BlockId>, h: BlockId)
    requires Sound(tree, base, index, pruned) && h in index
    requires forall x :: x in index ==> index[h].num <= index[x].num
    ensures WellFormed(tree, base, index - {h}, pruned + [h]) && Exact(tree, base, index - {h})
  {
    hide ClosestQuorum, AboveBase, SingleRoot, Linked, ConfirmationsValid;
    if pruned != [] {
      LowestFollowsLast(tree, base, index, pruned, h);
    }
    assert forall x :: x in pruned ==> x in pruned + [h];
    assert h in pruned + [h] by {
      assert (pruned + [h])[|pruned|] == h;
    }
    ChainGrows(tree, index, pruned, h);
  }

  lemma ChainGrows(tree: Tree, index: map<BlockId, Block>, pruned: seq<BlockId>, h: BlockId)
    requires PrunedChain(tree, index, pruned) && h in index && h in tree && tree[h].num == index[h].num
    requires pruned != [] ==> tree[h].previous == pruned[|pruned| - 1]
    requires forall x :: x in index ==> index[h].num <= index[x].num
    ensures PrunedChain(tree, index - {h}, pruned + [h])
  {
  }

  lemma HasParent(tree: Tree, x: BlockId, y: BlockId)
    requires SingleRoot(tree) && Linked(tree) && x in tree && y in tree && tree[y].num < tree[x].num
    ensures tree[x].previous in tree && tree[x].num == tree[tree[x].previous].num + 1
  {
  }

  lemma IndexedNode(tree: Tree, base: nat, index: map<BlockId, Block>, pruned: seq<BlockId>, x: BlockId)
    requires WellFormed(tree, base, index, pruned) && x in index
    ensures x in tree && tree[x].num == index[x].num && tree[x].previous == index[x].previous
  {
    hide AboveBase, ConfirmationsValid, HasQuorum, Linked, SingleRoot, PrunedChain;
  }

  lemma PrunedPart(tree: Tree, base: nat, index: map<BlockId, Block>, pruned: seq<BlockId>, p: BlockId)
    requires WellFormed(tree, base, index, pruned)
    ensures Linked(tree) && SingleRoot(tree) && (forall i :: 0 <= i < |pruned| ==> pruned[i] in tree)
    ensures p in tree && p !in index ==> p in pruned
  {
    hide AboveBase, ConfirmationsValid, HasQuorum, Linked, SingleRoot, NodeOf;
  }

  lemma FollowsLast(tree: Tree, base: nat, index: map<BlockId, Block>, pruned: seq<BlockId>, x: BlockId)
    requires WellFormed(tree, base, index, pruned) && pruned != [] && x in index
    requires forall y :: y in index ==> tree[pruned[|pruned| - 1]].num < index[y].num
    requires index[x].num == tree[pruned[|pruned| - 1]].num + 1
    ensures index[x].previous == pruned[|pruned| - 1]
  {
    hide WellFormed, SingleRoot, Linked;
    var p := index[x].previous;
    PrunedPart(tree, base, index, pruned, p);
    IndexedNode(tree, base, index, pruned, x);
    HasParent(tree, x, pruned[|pruned| - 1]);
    if p in index {
      IndexedNode(tree, base, index, pruned, p);
    } else {
      var i :| 0 <= i < |pruned| && pruned[i] == p;
      ChainNumbers(tree, base, index, pruned, i, |pruned| - 1);
    }
  }

  /** Once nothing is left beside the last irreversible block, the database is settled. */
  lemma SettledAbove(tree: Tree, base: nat, index: map<BlockId, Block>, pruned: seq<BlockId>)
    requires WellFormed(tree, base, index, pruned) && pruned != []
    requires forall x :: x in index ==> tree[pruned[|pruned| - 1]].num < index[x].num
    ensures Settled(tree, index, pruned)
  {
    hide AboveBase, ConfirmationsValid, Linked, SingleRoot, HasQuorum, NodeOf;
    forall x | x in index && index[x].num == tree[pruned[|pruned| - 1]].num + 1
      ensures index[x].previous == pruned[|pruned| - 1]
    {
      FollowsLast(tree, base, index, pruned, x);
    }
  }

  lemma FewerBlocks(index: map<BlockId, Block>, index': map<BlockId, Block>, x: BlockId)
    requires index'.Keys <= index.Keys && x in index && x !in index'
    ensures |index'| < |index|
  {
    assert index'.Keys <= index.Keys - {x};
    SmallerSet(index'.Keys, index.Keys - {x});
  }

  lemma {:induction false} SmallerSet(a: set<BlockId>, b: set<BlockId>)
    requires a <= b
    ensures |a| <= |b|
  {
    if a != {} {
      var x :| x in a;
      SmallerSet(a - {x}, b - {x});
    }
  }

  lemma KeptNode(tree: Tree, index: map<BlockId, Block>, id: BlockId, h: BlockId)
    requires Linked(TreeOf(index))
    ensures h in tree && h !in index ==>
              && h in WithoutNodes(tree, Subtree(index, id))
              && WithoutNodes(tree, Subtree(index, id))[h] == tree[h]
  {
  }

  lemma SoundParts(tree: Tree, base: nat, index: map<BlockId, Block>, pruned: seq<BlockId>)
    requires Sound(tree, base, index, pruned)
    ensures WellFormed(tree, base, index, pruned) && Exact(tree, base, index)
  {
  }

  lemma SoundWhole(tree: Tree, base: nat, index: map<BlockId, Block>, pruned: seq<BlockId>)
    requires WellFormed(tree, base, index, pruned) && Exact(tree, base, index) && Settled(tree, index, pruned)
    ensures Sound(tree, base, index, pruned)
  {
  }

  ghost predicate Part(index': map<BlockId, Block>, index: map<BlockId, Block>) {
    forall x :: x in index' ==> x in index && index'[x] == index[x]
  }

  lemma RemovedPart(index: map<BlockId, Block>, id: BlockId)
    requires Linked(TreeOf(index)) && id in index
    ensures Part(Without(index, Subtree(index, id)), index)
    ensures |Without(index, Subtree(index, id))| < |index|
  {
    BuiltOnItself(index, id);
    FewerBlocks(index, Without(index, Subtree(index, id)), id);
  }

  lemma {:induction false} DescendsOfUpper(t: Tree, t': Tree, a: BlockId, x: BlockId)
    requires Upper(t, t') && Linked(t) && Linked(t') && x in t
    ensures Descends(t', a, x) <==> Descends(t, a, x)
    decreases t[x].num
  {
    if x != a && t[x].previous in t {
      DescendsOfUpper(t, t', a, t[x].previous);
    }
  }

  lemma {:induction false} UniqueAncestor(t: Tree, a: BlockId, b: BlockId, x: BlockId)
    requires Linked(t) && x in t && Descends(t, a, x) && Descends(t, b, x)
    requires a in t && b in t && t[a].num == t[b].num
    ensures a == b
    decreases t[x].num
  {
    AncestorIsLower(t, a, x);
    AncestorIsLower(t, b, x);
    if x != a && x != b {
      UniqueAncestor(t, a, b, t[x].previous);
    }
  }

  /** Every block left is built on the last block reported irreversible. */
  lemma {:induction false} RemainingDescends(tree: Tree, base: nat, index: map<BlockId, Block>, pruned: seq<BlockId>, x: BlockId)
    requires Sound(tree, base, index, pruned) && pruned != [] && x in index
    ensures Descends(tree, pruned[|pruned| - 1], x)
    decreases index[x].num
  {
    hide Exact, AboveBase, ConfirmationsValid, HasQuorum;
    var last, p := pruned[|pruned| - 1], index[x].previous;
    assert tree[x] == NodeOf(index[x]) && tree[last].num < tree[x].num;
    assert p in tree;
    if p in index {
      RemainingDescends(tree, base, index, pruned, p);
    } else {
      LowestOfPruned(tree, base, index, pruned, x);
      assert Descends(tree, last, p);
    }
  }

  lemma LowestOfPruned(tree: Tree, base: nat, index: map<BlockId, Block>, pruned: seq<BlockId>, x: BlockId)
    requires WellFormed(tree, base, index, pruned) && Settled(tree, index, pruned) && x in index
    requires index[x].previous in tree && index[x].previous !in index
    ensures pruned != [] && index[x].previous == pruned[|pruned| - 1]
  {
    hide AboveBase, ConfirmationsValid, HasQuorum, SingleRoot;
    var p := index[x].previous;
    assert tree[x] == NodeOf(index[x]);
    var i :| 0 <= i < |pruned| && pruned[i] == p;
    ChainNumbers(tree, base, index, pruned, i, |pruned| - 1);
  }

  lemma SubtreeDescends(tree: Tree, base: nat, index: map<BlockId, Block>, pruned: seq<BlockId>, id: BlockId, x: BlockId)
    requires WellFormed(tree, base, index, pruned) && Linked(TreeOf(index)) && id in index
    requires x in Subtree(index, id)
    ensures x in tree && Linked(tree) && Descends(tree, id, x)
  {
    hide Descends, BuiltOn, AboveBase, SingleRoot, PrunedChain, ConfirmationsValid;
    BuiltOnIsDescends(TreeOf(index), id, x);
    AncestryStaysInside(tree, base, index, pruned, id, x);
  }

  /** Blocks disappear only together with a block of the given number they are built on. */
  ghost predicate OnlyRivalsGone(tree0: Tree, index0: map<BlockId, Block>, index: map<BlockId, Block>, num: nat) {
    && Linked(tree0)
    && forall x :: x in index0 && x !in index ==>
         x in tree0 && exists y :: y in index0 && index0[y].num == num && Descends(tree0, y, x)
  }

  lemma RivalsGoneStep(tree0: Tree, index0: map<BlockId, Block>, tree: Tree, base: nat, index: map<BlockId, Block>,
                       pruned: seq<BlockId>, num: nat, z: BlockId)
    requires OnlyRivalsGone(tree0, index0, index, num) && Upper(tree, tree0) && Part(index, index0)
    requires WellFormed(tree, base, index, pruned) && Linked(TreeOf(index)) && z in index && index[z].num == num
    ensures OnlyRivalsGone(tree0, index0, Without(index, Subtree(index, z)), num)
  {
    hide Descends, BuiltOn, AboveBase, SingleRoot, PrunedChain, ConfirmationsValid, TreeOf, Subtree;
    forall x | x in index && x in Subtree(index, z)
      ensures x in tree0 && exists y :: y in index0 && index0[y].num == num && Descends(tree0, y, x)
    {
      SubtreeDescends(tree, base, index, pruned, z, x);
      DescendsOfUpper(tree, tree0, z, x);
      assert z in index0 && index0[z].num == num && Descends(tree0, z, x);
    }
  }

  lemma RemovalStaysUpper(tree0: Tree, tree: Tree, base: nat, index: map<BlockId, Block>, pruned: seq<BlockId>, z: BlockId)
    requires Upper(tree, tree0) && WellFormed(tree, base, index, pruned) && Linked(TreeOf(index))
    ensures Upper(WithoutNodes(tree, Subtree(index, z)), tree0)
  {
    hide Descends, BuiltOn, AboveBase, SingleRoot, PrunedChain, ConfirmationsValid, TreeOf, Subtree, WellFormed, Linked;
    SubtreeIsClosed(index, z);
    SubtreeOfIndex(index, z);
    RemovedIsClosed(tree, base, index, pruned, Subtree(index, z));
    assert Subtree(index, z) * index.Keys == Subtree(index, z);
  }

  lemma SubtreeOfIndex(index: map<BlockId, Block>, z: BlockId)
    requires Linked(TreeOf(index))
    ensures Subtree(index, z) <= index.Keys
  {
  }

  /** All blocks of `index0` built on `h` are still there. */
  ghost predicate KeepsDescendants(tree0: Tree, index0: map<BlockId, Block>, index: map<BlockId, Block>, h: BlockId) {
    && Linked(tree0)
    && forall x :: x in index0 && x != h && x in tree0 && Descends(tree0, h, x) ==> x in index
  }

  lemma NotOnRival(tree0: Tree, index1: map<BlockId, Block>, index: map<BlockId, Block>, h: BlockId, num: nat, x: BlockId)
    requires OnlyRivalsGone(tree0, index1, index, num) && x in index1 && x in tree0 && h !in index1
    requires h in tree0 && tree0[h].num == num && Descends(tree0, h, x)
    requires forall y :: y in index1 ==> y in tree0 && tree0[y].num == index1[y].num
    ensures x in index
  {
    hide Descends, Linked;
    if x !in index {
      var y :| y in index1 && index1[y].num == num && Descends(tree0, y, x);
      UniqueAncestor(tree0, h, y, x);
    }
  }

  lemma RivalsHaveNoCommonDescendants(tree0: Tree, index0: map<BlockId, Block>, index1: map<BlockId, Block>,
                                      index: map<BlockId, Block>, h: BlockId, num: nat)
    requires OnlyRivalsGone(tree0, index1, index, num) && h in tree0 && tree0[h].num == num
    requires index1.Keys == index0.Keys - {h}
    requires forall x :: x in index1 ==> x in tree0 && tree0[x].num == index1[x].num
    ensures KeepsDescendants(tree0, index0, index, h)
  {
    hide Descends, OnlyRivalsGone, Linked;
    RivalsLinked(tree0, index1, index, num);
    forall x | x in index0 && x != h && x in tree0 && Descends(tree0, h, x)
      ensures x in index
    {
      NotOnRival(tree0, index1, index, h, num, x);
    }
  }

  lemma RivalsLinked(tree0: Tree, index1: map<BlockId, Block>, index: map<BlockId, Block>, num: nat)
    requires OnlyRivalsGone(tree0, index1, index, num)
    ensures Linked(tree0)
  {
  }

  lemma KeepsDescendantsStep(tree0: Tree, index0: map<BlockId, Block>, tree1: Tree, index1: map<BlockId, Block>,
                             index2: map<BlockId, Block>, h1: BlockId, h2: BlockId)
    requires KeepsDescendants(tree0, index0, index1, h1) && KeepsDescendants(tree1, index1, index2, h2)
    requires Upper(tree1, tree0) && h2 in tree0 && h1 != h2 && Descends(tree0, h1, h2)
    requires forall x :: x in index1 ==> x in tree1
    ensures KeepsDescendants(tree0, index0, index2, h2)
  {
    hide Descends;
    forall x | x in index0 && x != h2 && x in tree0 && Descends(tree0, h2, x)
      ensures x in index2
    {
      DescendsIsTransitive(tree0, h1, h2, x);
      AncestorIsLower(tree0, h2, x);
      AncestorIsLower(tree0, h1, h2);
      DescendsOfUpper(tree1, tree0, h2, x);
    }
  }

  lemma UpperItself(t: Tree)
    ensures Upper(t, t)
  {
  }

  lemma UpperIsTransitive(t: Tree, t': Tree, t'': Tree)
    requires Upper(t, t') && Upper(t', t'')
    ensures Upper(t, t'')
  {
  }

  lemma NoneGone(tree: Tree, base: nat, index: map<BlockId, Block>, pruned: seq<BlockId>, num: nat)
    requires WellFormed(tree, base, index, pruned)
    ensures OnlyRivalsGone(tree, index, index, num)
  {
  }

  lemma NodesInTree(tree: Tree, base: nat, index: map<BlockId, Block>, pruned: seq<BlockId>)
    requires WellFormed(tree, base, index, pruned)
    ensures forall x :: x in index ==> x in tree && tree[x].num == index[x].num
  {
  }

  /** Reporting first one block and then another that is left keeps what is built on the second. */
  lemma DescendsFromReported(tree0: Tree, index0: map<BlockId, Block>, tree1: Tree, base: nat,
                             index1: map<BlockId, Block>, reported1: seq<BlockId>, index2: map<BlockId, Block>,
                             h: BlockId)
    requires reported1 != [] && KeepsDescendants(tree0, index0, index1, reported1[|reported1| - 1])
    requires Sound(tree1, base, index1, reported1) && Upper(tree1, tree0) && h in index1
    requires KeepsDescendants(tree1, index1, index2, h)
    ensures KeepsDescendants(tree0, index0, index2, h)
  {
    hide Descends, Exact, AboveBase, SingleRoot, ConfirmationsValid, HasQuorum;
    var last := reported1[|reported1| - 1];
    RemainingDescends(tree1, base, index1, reported1, h);
    DescendsOfUpper(tree1, tree0, last, h);
    NodesInTree(tree1, base, index1, reported1);
    KeepsDescendantsStep(tree0, index0, tree1, index1, index2, last, h);
  }

  /** What pruning lower blocks does: it reports the last block below `num` and keeps what is
      built on it, or there was nothing to prune. */
  ghost predicate PrunedBelow(tree0: Tree, index0: map<BlockId, Block>, reported: seq<BlockId>, tree: Tree,
                              index: map<BlockId, Block>, irreversible: seq<BlockId>, num: nat) {
    && Part(index, index0) && Upper(tree, tree0) && reported <= irreversible
    && (irreversible == reported ==> index == index0 && tree == tree0)
    && (irreversible != reported ==>
          var last := irreversible[|irreversible| - 1];
          last in index0 && index0[last].num < num && KeepsDescendants(tree0, index0, index, last))
    && ((forall x :: x in index0 ==> index0[x].num >= num) ==> index == index0 && irreversible == reported)
  }

  lemma NonePruned(tree: Tree, index: map<BlockId, Block>, reported: seq<BlockId>, num: nat)
    ensures PrunedBelow(tree, index, reported, tree, index, reported, num)
  {
    hide Upper, KeepsDescendants;
    UpperItself(tree);
  }

  lemma NoneIsLower(index: map<BlockId, Block>, h: BlockId)
    requires IsOldest(index, h)
    ensures h in index && forall x :: x in index ==> index[x].num >= index[h].num
  {
  }

  lemma PrunedOneMore(tree0: Tree, index0: map<BlockId, Block>, reported: seq<BlockId>, tree1: Tree, base: nat,
                      index1: map<BlockId, Block>, reported1: seq<BlockId>, tree2: Tree, index2: map<BlockId, Block>,
                      reported2: seq<BlockId>, num: nat, h: BlockId)
    requires PrunedBelow(tree0, index0, reported, tree1, index1, reported1, num) && Sound(tree1, base, index1, reported1)
    requires h in index1 && index1[h].num < num
    requires Part(index2, index1) && Upper(tree2, tree1) && reported2 == reported1 + [h]
    requires KeepsDescendants(tree1, index1, index2, h)
    ensures PrunedBelow(tree0, index0, reported, tree2, index2, reported2, num)
  {
    hide Sound, Upper, KeepsDescendants;
    UpperIsTransitive(tree2, tree1, tree0);
    if reported1 != reported {
      DescendsFromReported(tree0, index0, tree1, base, index1, reported1, index2, h);
    }
  }

  // ----- branches -----

  function Last(s: seq<BlockId>): BlockId
    requires s != []
  {
    s[|s| - 1]
  }

  /** A walk from `from` along the predecessors. */
  ghost predicate IsBranch(index: map<BlockId, Block>, from: BlockId, branch: seq<BlockId>) {
    && branch != [] && branch[0] == from
    && (forall i :: 0 <= i < |branch| ==> branch[i] in index)
    && (forall i :: 0 < i < |branch| ==> branch[i] == index[branch[i - 1]].previous)
  }

  lemma BranchStarts(index: map<BlockId, Block>, from: BlockId)
    requires from in index
    ensures IsBranch(index, from, [] + [from])
  {
  }

  lemma BranchIsKnown(index: map<BlockId, Block>, from: BlockId, branch: seq<BlockId>)
    requires IsBranch(index, from, branch)
    ensures branch != [] && Last(branch) in index
  {
  }

  function FromEnd(s: seq<BlockId>, k: nat): BlockId
    requires 1 <= k <= |s|
  {
    s[|s| - k]
  }

  /** Counted from their ends, the branches share no block but possibly the tip of one of them. */
  ghost predicate Apart(s: seq<BlockId>, t: seq<BlockId>) {
    forall k :: 1 <= k < |s| && k < |t| ==> FromEnd(s, k) != FromEnd(t, k)
  }

  lemma NothingShared(s: seq<BlockId>, t: seq<BlockId>)
    requires |s| <= 1 || |t| <= 1
    ensures Apart(s, t)
  {
  }

  lemma StillApart(s: seq<BlockId>, t: seq<BlockId>, x: BlockId, y: BlockId)
    requires Apart(s, t) && x != y && s != [] && t != []
    requires |s| > 1 && |t| > 1 ==> Last(s) != Last(t)
    ensures Apart(s + [x], t + [y])
  {
    forall k | 1 <= k < |s + [x]| && k < |t + [y]|
      ensures FromEnd(s + [x], k) != FromEnd(t + [y], k)
    {
      if k > 1 {
        assert FromEnd(s + [x], k) == FromEnd(s, k - 1) && FromEnd(t + [y], k) == FromEnd(t, k - 1);
      }
    }
  }

  lemma BranchGrows(index: map<BlockId, Block>, from: BlockId, branch: seq<BlockId>, x: BlockId)
    requires x in index && IsBranch(index, from, branch + [x]) && index[x].previous in index
    ensures IsBranch(index, from, branch + [x] + [index[x].previous])
  {
    assert (branch + [x])[|branch|] == x;
  }

  // ----- when two branches meet -----

  lemma {:induction false} BranchNumber(index: map<BlockId, Block>, from: BlockId, branch: seq<BlockId>, i: nat)
    requires Linked(TreeOf(index)) && IsBranch(index, from, branch) && i < |branch|
    ensures index[branch[i]].num == index[from].num - i
  {
    if i > 0 {
      BranchNumber(index, from, branch, i - 1);
      assert TreeOf(index)[branch[i - 1]].previous == branch[i];
      assert branch[i] in TreeOf(index);
    }
  }

  lemma {:induction false} BranchDescends(index: map<BlockId, Block>, from: BlockId, branch: seq<BlockId>, i: nat, j: nat)
    requires Linked(TreeOf(index)) && IsBranch(index, from, branch) && j <= i < |branch|
    ensures branch[j] in TreeOf(index) && Descends(TreeOf(index), branch[i], branch[j])
    decreases i - j
  {
    if j < i {
      BranchDescends(index, from, branch, i, j + 1);
      assert branch[j + 1] == index[branch[j]].previous;
    }
  }

  /** A branch goes through every ancestor down to its end. */
  lemma {:induction false} AncestorIsOnBranch(index: map<BlockId, Block>, from: BlockId, branch: seq<BlockId>, a: BlockId, j: nat)
    requires Linked(TreeOf(index)) && IsBranch(index, from, branch) && j < |branch|
    requires a in index && index[a].num >= index[Last(branch)].num
    requires branch[j] in TreeOf(index) && Descends(TreeOf(index), a, branch[j])
    ensures a in branch
    decreases |branch| - j
  {
    hide Linked;
    if branch[j] != a {
      AncestorIsLower(TreeOf(index), a, branch[j]);
      BranchNumber(index, from, branch, j);
      BranchNumber(index, from, branch, |branch| - 1);
      assert branch[j + 1] == index[branch[j]].previous;
      AncestorIsOnBranch(index, from, branch, a, j + 1);
    }
  }

  /** Blocks that two branches with equally high ends share are at the same place from the end. */
  lemma SharedIsStart(index: map<BlockId, Block>, first: BlockId, s: seq<BlockId>, second: BlockId, t: seq<BlockId>, x: BlockId)
    requires Linked(TreeOf(index)) && IsBranch(index, first, s) && IsBranch(index, second, t) && Apart(s, t)
    requires index[Last(s)].num == index[Last(t)].num && x in s && x in t
    ensures x == first || x == second
  {
    hide Linked;
    var i :| 0 <= i < |s| && s[i] == x;
    var j :| 0 <= j < |t| && t[j] == x;
    BranchNumber(index, first, s, i);
    BranchNumber(index, first, s, |s| - 1);
    BranchNumber(index, second, t, j);
    BranchNumber(index, second, t, |t| - 1);
    var k := |s| - i;
    assert FromEnd(s, k) == x && FromEnd(t, k) == x;
  }

  /** The branches share a block exactly when one of the two starts is built on the other. */
  lemma BranchesMeetIff(index: map<BlockId, Block>, first: BlockId, s: seq<BlockId>, second: BlockId, t: seq<BlockId>)
    requires Linked(TreeOf(index)) && IsBranch(index, first, s) && IsBranch(index, second, t) && Apart(s, t)
    requires first in TreeOf(index) && second in TreeOf(index) && index[Last(s)].num == index[Last(t)].num
    ensures (exists x :: x in s && x in t) <==> Descends(TreeOf(index), second, first) || Descends(TreeOf(index), first, second)
    ensures forall x :: x in s && x in t ==> x == first || x == second
  {
    hide Linked, Descends, Apart;
    forall x | x in s && x in t ensures x == first || x == second {
      SharedIsStart(index, first, s, second, t, x);
    }
    if x :| x in s && x in t {
      MeetsDescends(index, first, s, x);
      MeetsDescends(index, second, t, x);
    }
    if Descends(TreeOf(index), second, first) {
      StartIsShared(index, first, s, second, t);
    }
    if Descends(TreeOf(index), first, second) {
      StartIsShared(index, second, t, first, s);
    }
  }

  lemma MeetsDescends(index: map<BlockId, Block>, from: BlockId, branch: seq<BlockId>, x: BlockId)
    requires Linked(TreeOf(index)) && IsBranch(index, from, branch) && x in branch
    ensures from in TreeOf(index) && Descends(TreeOf(index), x, from)
  {
    hide Linked, Descends;
    var i :| 0 <= i < |branch| && branch[i] == x;
    BranchDescends(index, from, branch, i, 0);
  }

  lemma StartIsShared(index: map<BlockId, Block>, first: BlockId, s: seq<BlockId>, second: BlockId, t: seq<BlockId>)
    requires Linked(TreeOf(index)) && IsBranch(index, first, s) && IsBranch(index, second, t)
    requires first in TreeOf(index) && index[Last(s)].num == index[Last(t)].num && Descends(TreeOf(index), second, first)
    ensures second in s && second in t
  {
    hide Linked, Descends;
    assert t[0] == second;
    BranchNumber(index, second, t, |t| - 1);
    AncestorIsOnBranch(index, first, s, second, 0);
  }

  // ----- the head -----

  /** The head is the best block, and there is none only in an empty database. */
  ghost predicate HeadIsBest(index: map<BlockId, Block>, head: Option<BlockId>) {
    (head.None? <==> |index| == 0) && (head.Some? ==> IsBest(index, head.value))
  }

  /** No block makes a later one irreversible. */
  ghost predicate Behind(index: map<BlockId, Block>) {
    forall x :: x in index ==> index[x].dpos <= index[x].num
  }

  ghost predicate HeadAbove(index: map<BlockId, Block>, head: Option<BlockId>, num: nat) {
    head.Some? && head.value in index ==> index[head.value].num > num
  }

  lemma HeadStays(index: map<BlockId, Block>, head: Option<BlockId>, h: BlockId)
    requires HeadIsBest(index, head) && h in index && HeadAbove(index, head, index[h].num)
    ensures HeadIsBest(index - {h}, head)
  {
    hide NotBetter;
    assert h in index.Keys && |index.Keys| == |index|;
    if head.Some? {
      assert head.value in (index - {h}).Keys;
    }
  }

  lemma BestIsBehind(index: map<BlockId, Block>, head: Option<BlockId>, num: nat)
    requires Behind(index) && head.Some? && head.value in index && num < index[head.value].dpos
    ensures HeadAbove(index, head, num)
  {
  }

  /** Whether the oldest block is below the one the best block makes irreversible; which of several
      best or oldest blocks is meant makes no difference. */
  ghost predicate PrunesIff(index: map<BlockId, Block>, pruned: bool) {
    forall g, o :: IsBest(index, g) && IsOldest(index, o) ==> (pruned <==> index[o].num < index[g].dpos)
  }

  lemma PruningIsDecided(index: map<BlockId, Block>, g: BlockId, o: BlockId)
    requires IsBest(index, g) && IsOldest(index, o)
    ensures PrunesIff(index, index[o].num < index[g].dpos)
  {
    forall g', o' | IsBest(index, g') && IsOldest(index, o')
      ensures index[g].dpos == index[g'].dpos && index[o].num == index[o'].num
    {
      assert NotBetter(index[g], index[g']) && NotBetter(index[g'], index[g]);
      assert NotOlder(index[o], index[o']) && NotOlder(index[o'], index[o]);
    }
  }

  /** Confirmations, marks and removals move no block ahead of itself. */
  lemma ConfirmedIsBehind(index: map<BlockId, Block>, index': map<BlockId, Block>, id: BlockId, producer: Producer)
    requires Behind(index) && OnlyConfirmed(index, index', id, producer)
    ensures Behind(index')
  {
  }

  lemma BehindPart(index: map<BlockId, Block>, all: map<BlockId, Block>)
    requires Behind(all) && Part(index, all)
    ensures Behind(index)
  {
  }

  lemma ParentOf(tree: Tree, base: nat, index: map<BlockId, Block>, pruned: seq<BlockId>, x: BlockId)
    requires WellFormed(tree, base, index, pruned) && x in index && index[x].previous in index
    ensures index[x].num == index[index[x].previous].num + 1
  {
  }

  /** A block without its parent in the database has the lowest number. */
  lemma OrphanIsLowest(tree: Tree, base: nat, index: map<BlockId, Block>, pruned: seq<BlockId>, x: BlockId, y: BlockId)
    requires Sound(tree, base, index, pruned) && x in index && y in index && index[x].previous !in index
    ensures index[x].num <= index[y].num
  {
    hide Exact, AboveBase, ConfirmationsValid, HasQuorum;
    assert tree[x] == NodeOf(index[x]) && tree[y] == NodeOf(index[y]);
    if index[x].previous in tree {
      LowestOfPruned(tree, base, index, pruned, x);
    }
  }

  lemma LowerHasParent(tree: Tree, base: nat, index: map<BlockId, Block>, pruned: seq<BlockId>, x: BlockId, y: BlockId)
    requires Sound(tree, base, index, pruned) && x in index && y in index && index[y].num < index[x].num
    ensures index[x].previous in index && index[x].num == index[index[x].previous].num + 1
  {
    hide Exact, AboveBase, ConfirmationsValid, HasQuorum, Linked, SingleRoot;
    if index[x].previous !in index {
      OrphanIsLowest(tree, base, index, pruned, x, y);
    }
    ParentOf(tree, base, index, pruned, x);
  }

  /** Two blocks of one number with different predecessors both have them in the database. */
  lemma LevelHasParents(tree: Tree, base: nat, index: map<BlockId, Block>, pruned: seq<BlockId>, x: BlockId, y: BlockId)
    requires Sound(tree, base, index, pruned) && x in index && y in index && index[y].num == index[x].num
    requires index[x].previous != index[y].previous
    ensures index[x].previous in index && index[y].previous in index
    ensures index[x].num == index[index[x].previous].num + 1 && index[y].num == index[index[y].previous].num + 1
  {
    hide Exact, AboveBase, ConfirmationsValid, HasQuorum, Linked, SingleRoot;
    if index[x].previous !in index || index[y].previous !in index {
      BothOrphans(tree, base, index, pruned, x, y);
      SamePredecessor(tree, base, index, pruned, x, y);
    }
    ParentOf(tree, base, index, pruned, x);
    ParentOf(tree, base, index, pruned, y);
  }

  lemma BothOrphans(tree: Tree, base: nat, index: map<BlockId, Block>, pruned: seq<BlockId>, x: BlockId, y: BlockId)
    requires Sound(tree, base, index, pruned) && x in index && y in index && index[y].num == index[x].num
    requires index[x].previous !in index || index[y].previous !in index
    ensures index[x].previous !in index && index[y].previous !in index
  {
    hide Exact, AboveBase, ConfirmationsValid, HasQuorum, Linked, SingleRoot, PrunedChain;
    if index[x].previous in index {
      ParentOf(tree, base, index, pruned, x);
      OrphanIsLowest(tree, base, index, pruned, y, index[x].previous);
    }
    if index[y].previous in index {
      ParentOf(tree, base, index, pruned, y);
      OrphanIsLowest(tree, base, index, pruned, x, index[y].previous);
    }
  }

  lemma SamePredecessor(tree: Tree, base: nat, index: map<BlockId, Block>, pruned: seq<BlockId>, x: BlockId, y: BlockId)
    requires Sound(tree, base, index, pruned) && x in index && y in index && index[y].num == index[x].num
    requires index[x].previous !in index && index[y].previous !in index
    ensures index[x].previous == index[y].previous
  {
    hide Exact, AboveBase, ConfirmationsValid, HasQuorum, PrunedChain;
    assert tree[x] == NodeOf(index[x]) && tree[y] == NodeOf(index[y]);
    if index[x].previous in tree {
      LowestOfPruned(tree, base, index, pruned, x);
    }
    if index[y].previous in tree {
      LowestOfPruned(tree, base, index, pruned, y);
    }
  }

  // ----- conflicting final blocks -----

  ghost function Confirmers(b: Block): set<Producer> {
    Elements(b.confirmations)
  }

  ghost function Elements(s: seq<Producer>): set<Producer> {
    set p | p in s
  }

  lemma {:induction false} DistinctCount(s: seq<Producer>)
    requires forall i, j :: 0 <= i < j < |s| ==> s[i] != s[j]
    ensures |Elements(s)| == |s|
  {
    if s != [] {
      var last := s[|s| - 1];
      var rest := s[..|s| - 1];
      DistinctCount(rest);
      ElementsOfAppended(rest, last);
      assert rest + [last] == s;
    }
  }

  lemma ElementsOfAppended(s: seq<Producer>, p: Producer)
    ensures Elements(s + [p]) == Elements(s) + {p}
  {
  }

  lemma UnionBound(a: set<Producer>, b: set<Producer>, all: set<Producer>)
    requires a <= all && b <= all
    ensures |a * b| >= |a| + |b| - |all|
  {
    assert a == (a - b) + a * b;
    SmallerSet((a - b) + b, all);
    assert |a| == |a - b| + |a * b|;
    assert |(a - b) + b| == |a - b| + |b|;
  }

  /** Two quorums of one schedule share more than a third of its producers. */
  lemma QuorumsIntersect(a: Block, b: Block)
    requires ConfirmationsValid(a) && ConfirmationsValid(b) && HasQuorum(a) && HasQuorum(b)
    requires a.producers == b.producers && forall i, j :: 0 <= i < j < |a.producers| ==> a.producers[i] != a.producers[j]
    ensures 3 * |Confirmers(a) * Confirmers(b)| > |a.producers|
  {
    var all := Elements(a.producers);
    DistinctCount(a.producers);
    DistinctCount(a.confirmations);
    DistinctCount(b.confirmations);
    UnionBound(Confirmers(a), Confirmers(b), all);
  }

  ghost predicate Conflicting(index: map<BlockId, Block>, a: BlockId, b: BlockId)
    requires Linked(TreeOf(index)) && a in index && b in index
  {
    !Descends(TreeOf(index), a, b) && !Descends(TreeOf(index), b, a)
  }

  /** The producers of a schedule that confirmed two conflicting blocks of that schedule. */
  ghost function DoubleConfirmers(index: map<BlockId, Block>, producers: seq<Producer>): set<Producer>
    requires Linked(TreeOf(index))
  {
    set p | p in producers && DoubleConfirmed(index, producers, p)
  }

  ghost predicate DoubleConfirmed(index: map<BlockId, Block>, producers: seq<Producer>, p: Producer)
    requires Linked(TreeOf(index))
  {
    exists a, b :: a in index && b in index && index[a].producers == producers == index[b].producers
      && Conflicting(index, a, b) && p in index[a].confirmations && p in index[b].confirmations
  }

  /** As long as at most a third of the producers of a schedule confirm conflicting blocks, the
      blocks of that schedule that gathered a quorum all lie on one chain. This holds of the blocks
      of the database, and of all blocks it ever held. */
  lemma FinalBlocksFormAChain(blocks: map<BlockId, Block>, a: BlockId, b: BlockId)
    requires Linked(TreeOf(blocks)) && (forall x :: x in blocks ==> ConfirmationsValid(blocks[x])) && a in blocks && b in blocks
    requires HasQuorum(blocks[a]) && HasQuorum(blocks[b])
    requires blocks[a].producers == blocks[b].producers
    requires forall i, j :: 0 <= i < j < |blocks[a].producers| ==> blocks[a].producers[i] != blocks[a].producers[j]
    requires 3 * |DoubleConfirmers(blocks, blocks[a].producers)| <= |blocks[a].producers|
    ensures Descends(TreeOf(blocks), a, b) || Descends(TreeOf(blocks), b, a)
  {
    hide Descends, TreeOf, Linked, HasQuorum, ConfirmationsValid;
    if Conflicting(blocks, a, b) {
      QuorumsIntersect(blocks[a], blocks[b]);
      var shared := Confirmers(blocks[a]) * Confirmers(blocks[b]);
      forall p | p in shared
        ensures p in DoubleConfirmers(blocks, blocks[a].producers)
      {
        ConfirmerIsProducer(blocks[a], p);
        assert DoubleConfirmed(blocks, blocks[a].producers, p);
      }
      SmallerSet(shared, DoubleConfirmers(blocks, blocks[a].producers));
    }
  }

  lemma ConfirmerIsProducer(b: Block, p: Producer)
    requires ConfirmationsValid(b) && p in b.confirmations
    ensures p in b.producers
  {
  }

  // ----- all blocks the database ever held -----

  /** The same block, with at least the confirmations. */
  ghost predicate Outlives(b: Block, b': Block) {
    b'.previous == b.previous && b'.num == b.num && b'.producers == b.producers && Confirmers(b) <= Confirmers(b')
  }

  ghost predicate Outlasts(blocks: map<BlockId, Block>, blocks': map<BlockId, Block>) {
    forall x :: x in blocks ==> x in blocks' && Outlives(blocks[x], blocks'[x])
  }

  /** `ever` holds every block of the database, and all confirmations. */
  ghost predicate Remembers(ever: map<BlockId, Block>, index: map<BlockId, Block>) {
    && Linked(TreeOf(ever)) && (forall x :: x in ever ==> ConfirmationsValid(ever[x]))
    && Outlasts(index, ever)
  }

  /** The id of a new block was not used for another one, not even for one that was removed. */
  ghost predicate NamesOne(ever: map<BlockId, Block>, id: BlockId, b: Block) {
    && (id in ever ==> Outlives(b, ever[id]))
    && (id !in ever ==> forall x :: x in ever ==> ever[x].previous != id)
  }

  ghost function WithBlock(ever: map<BlockId, Block>, id: BlockId, b: Block): map<BlockId, Block> {
    if id in ever then ever else ever[id := b]
  }

  ghost function WithConfirmer(ever: map<BlockId, Block>, id: BlockId, producer: Producer): map<BlockId, Block> {
    if id !in ever || producer in ever[id].confirmations then ever else ever[id := WithConfirmation(ever[id], producer)]
  }

  lemma AddingIsRemembered(ever: map<BlockId, Block>, index: map<BlockId, Block>, previous: BlockId, id: BlockId, b: Block)
    requires Remembers(ever, index) && Extends(index, previous, b) && NamesOne(ever, id, b)
    ensures Remembers(WithBlock(ever, id, b), index[id := b]) && Outlasts(ever, WithBlock(ever, id, b))
  {
    hide ConfirmationsValid, HasQuorum, Confirmers;
    SelfOutlives();
    assert Outlives(index[previous], ever[previous]);
    NoConfirmationsAreValid(b);
    if id !in ever {
      LinkedWithBlock(ever, id, b);
    }
  }

  lemma LinkedWithBlock(ever: map<BlockId, Block>, id: BlockId, b: Block)
    requires Linked(TreeOf(ever)) && id !in ever && b.previous in ever && b.num == ever[b.previous].num + 1
    requires forall x :: x in ever ==> ever[x].previous != id
    ensures Linked(TreeOf(ever[id := b]))
  {
    hide HasQuorum;
    var t, t' := TreeOf(ever), TreeOf(ever[id := b]);
    forall x | x in t' && t'[x].previous in t' ensures t'[x].num == t'[t'[x].previous].num + 1 {
      if x != id {
        assert t[x].previous == t'[x].previous && t[x].previous in t;
      }
    }
  }

  lemma SelfOutlives()
    ensures forall b :: Outlives(b, b)
  {
  }

  lemma NoConfirmationsAreValid(b: Block)
    ensures b.confirmations == [] ==> ConfirmationsValid(b)
  {
  }

  lemma ConfirmingIsRemembered(ever: map<BlockId, Block>, index: map<BlockId, Block>, index': map<BlockId, Block>, id: BlockId,
                               producer: Producer)
    requires Remembers(ever, index) && OnlyConfirmed(index, index', id, producer) && producer in index[id].producers
    ensures Remembers(WithConfirmer(ever, id, producer), index') && Outlasts(ever, WithConfirmer(ever, id, producer))
  {
    hide ConfirmationsValid, HasQuorum, Confirmers;
    var ever' := WithConfirmer(ever, id, producer);
    assert Outlives(index[id], ever[id]);
    SelfOutlives();
    OneMoreConfirmer(index[id], producer);
    OneMoreConfirmer(ever[id], producer);
    SamePlacesLinked(ever, ever');
    forall x | x in index' ensures Outlives(index'[x], ever'[x]) {
      assert Outlives(index[x], ever[x]);
      SameConfirmers(index'[x], if x == id then WithConfirmation(index[x], producer) else index[x]);
    }
  }

  lemma SameConfirmers(b: Block, b': Block)
    requires b.confirmations == b'.confirmations
    ensures Confirmers(b) == Confirmers(b')
  {
  }

  lemma SamePlacesLinked(ever: map<BlockId, Block>, ever': map<BlockId, Block>)
    requires Linked(TreeOf(ever)) && SamePlaces(ever, ever')
    ensures Linked(TreeOf(ever'))
  {
    hide HasQuorum;
    var t, t' := TreeOf(ever), TreeOf(ever');
    forall x | x in t' && t'[x].previous in t' ensures t'[x].num == t'[t'[x].previous].num + 1 {
      assert t[x].previous == t'[x].previous && t[x].previous in t;
    }
  }

  lemma OneMoreConfirmer(b: Block, producer: Producer)
    ensures Confirmers(WithConfirmation(b, producer)) == Confirmers(b) + {producer}
    ensures ConfirmationsValid(b) && producer in b.producers && producer !in b.confirmations ==>
              ConfirmationsValid(WithConfirmation(b, producer))
    ensures producer in b.confirmations <==> producer in Confirmers(b)
  {
  }

  lemma PartIsRemembered(ever: map<BlockId, Block>, index: map<BlockId, Block>, index': map<BlockId, Block>)
    requires Remembers(ever, index) && Part(index', index)
    ensures Remembers(ever, index')
  {
    hide Outlives, ConfirmationsValid, TreeOf, Linked;
  }

  lemma MarkIsRemembered(ever: map<BlockId, Block>, index: map<BlockId, Block>, id: BlockId, flag: bool)
    requires Remembers(ever, index) && id in index
    ensures Remembers(ever, index[id := index[id].(inCurrentChain := flag)])
  {
    hide ConfirmationsValid, TreeOf, Linked;
    assert Outlives(index[id], ever[id]);
  }

  /** A block that had a quorum has one in everything that outlasts it. */
  lemma QuorumIsRemembered(b: Block, b': Block)
    requires ConfirmationsValid(b) && ConfirmationsValid(b') && Outlives(b, b') && HasQuorum(b)
    ensures HasQuorum(b')
  {
    DistinctCount(b.confirmations);
    DistinctCount(b'.confirmations);
    SmallerSet(Confirmers(b), Confirmers(b'));
  }

  // ----- adding blocks -----

  datatype AddResult = Added | AlreadyKnown | Unlinkable

  function NewBlock(parent: Block, previous: BlockId, producers: seq<Producer>, dpos: nat): Block {
    Block(previous, parent.num + 1, producers, [], parent.bft, dpos, false)
  }

  lemma BestIsKnown(index: map<BlockId, Block>, h: Option<BlockId>)
    requires HeadIsBest(index, h) && index.Keys != {}
    ensures h.Some? && h.value in index && |index| > 0 && IsBest(index, h.value)
  {
    assert |index.Keys| == |index|;
  }

  lemma MarkKeepsSound(tree: Tree, base: nat, index: map<BlockId, Block>, pruned: seq<BlockId>, id: BlockId, flag: bool)
    requires Sound(tree, base, index, pruned) && id in index
    ensures Sound(tree, base, index[id := index[id].(inCurrentChain := flag)], pruned)
  {
    hide Linked, AboveBase, SingleRoot, PrunedChain, Settled, ClosestQuorum;
    var index' := index[id := index[id].(inCurrentChain := flag)];
    ShapeStaysWellFormed(tree, tree, base, index, index', pruned);
  }

  datatype ConfirmResult = Confirmed | UnknownBlock | DoubleConfirm | NotInSchedule | WrongKey

  /** What `add(header_confirmation)` answers. */
  function ConfirmationVerdict(index: map<BlockId, Block>, id: BlockId, producer: Producer, signed: bool): ConfirmResult {
    if id !in index then UnknownBlock
    else if producer in index[id].confirmations then DoubleConfirm
    else if producer !in index[id].producers then NotInSchedule
    else if !signed then WrongKey
    else Confirmed
  }

  /** The same blocks at the same places. */
  ghost predicate SameShape(t: Tree, t': Tree) {
    t.Keys == t'.Keys && forall id :: id in t ==> t'[id].previous == t[id].previous && t'[id].num == t[id].num
  }

  ghost predicate SamePlaces(index: map<BlockId, Block>, index': map<BlockId, Block>) {
    && index.Keys == index'.Keys
    && forall id :: id in index ==> index'[id].previous == index[id].previous && index'[id].num == index[id].num
  }

  lemma ShapeIsLinked(t: Tree, t': Tree, base: nat)
    requires SameShape(t, t') && Linked(t) && AboveBase(t, base) && SingleRoot(t)
    ensures Linked(t') && AboveBase(t', base) && SingleRoot(t')
  {
  }

  lemma ShapeKeepsChain(t: Tree, t': Tree, index: map<BlockId, Block>, index': map<BlockId, Block>, pruned: seq<BlockId>)
    requires SameShape(t, t') && SamePlaces(index, index') && PrunedChain(t, index, pruned)
    ensures PrunedChain(t', index', pruned)
    ensures Settled(t, index, pruned) ==> Settled(t', index', pruned)
  {
  }

  lemma ShapeStaysWellFormed(t: Tree, t': Tree, base: nat, index: map<BlockId, Block>, index': map<BlockId, Block>,
                             pruned: seq<BlockId>)
    requires SameShape(t, t') && SamePlaces(index, index') && WellFormed(t, base, index, pruned)
    requires forall id :: id in index' ==> t'[id] == NodeOf(index'[id]) && ConfirmationsValid(index'[id])
    ensures WellFormed(t', base, index', pruned)
    ensures Settled(t, index, pruned) ==> Settled(t', index', pruned)
  {
    hide Linked, AboveBase, SingleRoot, PrunedChain, ConfirmationsValid;
    ShapeIsLinked(t, t', base);
    ShapeKeepsChain(t, t', index, index', pruned);
  }

  /** The state after a confirmation was recorded but before any number was raised. */
  ghost predicate Recorded(tree: Tree, base: nat, index: map<BlockId, Block>, pruned: seq<BlockId>,
                           id: BlockId, producer: Producer)
  {
    && Sound(tree, base, index, pruned)
    && id in index && producer in index[id].producers && producer !in index[id].confirmations
  }

  ghost function WithConfirmation(b: Block, producer: Producer): Block {
    b.(confirmations := b.confirmations + [producer])
  }

  /** One confirmation was added, and final block numbers rose or stayed. */
  ghost predicate OnlyConfirmed(index: map<BlockId, Block>, index': map<BlockId, Block>, id: BlockId, producer: Producer)
  {
    && index'.Keys == index.Keys && id in index
    && forall b :: b in index ==>
         && index[b].bft <= index'[b].bft
         && index'[b] == (if b == id then WithConfirmation(index[b], producer) else index[b]).(bft := index'[b].bft)
  }

  /** The confirmation completes a quorum of a block that is not final yet. */
  ghost predicate Completes(b: Block, producer: Producer) {
    b.bft < b.num && HasQuorum(WithConfirmation(b, producer))
  }

  /** The final block numbers after a confirmation. */
  ghost predicate NumbersAfter(index: map<BlockId, Block>, index': map<BlockId, Block>, id: BlockId, producer: Producer) {
    && Linked(TreeOf(index)) && id in index && index'.Keys == index.Keys
    && forall x :: x in index ==>
         index'[x].bft == if Completes(index[id], producer) then RaisedNumber(index, id, x) else index[x].bft
  }

  /** A quorum is more than two thirds: neither more nor fewer different producers will do. */
  lemma QuorumIsTwoThirds(b: Block)
    requires ConfirmationsValid(b)
    ensures HasQuorum(b) <==> 3 * |Confirmers(b)| > 2 * |b.producers|
  {
    DistinctCount(b.confirmations);
  }

  /** What a confirmation does to the final block numbers: if more than two thirds of the producers
      have now confirmed `id`, and it was not final, it becomes final, and every block built on it
      becomes final up to it. No other number changes. */
  ghost predicate FinalAfter(index: map<BlockId, Block>, index': map<BlockId, Block>, id: BlockId) {
    && Linked(TreeOf(index)) && id in index && index'.Keys == index.Keys
    && forall x :: x in index ==> index'[x].bft == FinalNumber(index, index'[id], id, x)
  }

  ghost function FinalNumber(index: map<BlockId, Block>, b: Block, id: BlockId, x: BlockId): nat
    requires Linked(TreeOf(index)) && id in index && x in index
  {
    var n := index[id].num;
    if index[id].bft < n && 3 * |Confirmers(b)| > 2 * |b.producers| && Descends(TreeOf(index), id, x) && index[x].bft < n then n
    else index[x].bft
  }

  lemma NumbersAreFinal(index: map<BlockId, Block>, index': map<BlockId, Block>, id: BlockId, producer: Producer)
    requires OnlyConfirmed(index, index', id, producer) && NumbersAfter(index, index', id, producer)
    requires ConfirmationsValid(index'[id])
    ensures FinalAfter(index, index', id) && Confirmers(index'[id]) == Confirmers(index[id]) + {producer}
    ensures index'[id].bft == if index[id].bft < index[id].num && 3 * |Confirmers(index'[id])| > 2 * |index'[id].producers| then
                                index[id].num
                              else index[id].bft
  {
    hide Linked, Descends, TreeOf, HasQuorum, ConfirmationsValid;
    QuorumIsTwoThirds(index'[id]);
    OneMoreConfirmer(index[id], producer);
    SameConfirmers(index'[id], WithConfirmation(index[id], producer));
    SameQuorum(index'[id], WithConfirmation(index[id], producer));
    DescendsItself(index, id);
  }

  lemma ValidBlock(tree: Tree, base: nat, index: map<BlockId, Block>, pruned: seq<BlockId>, id: BlockId)
    requires Sound(tree, base, index, pruned) && id in index
    ensures ConfirmationsValid(index[id])
  {
    hide Linked, Exact, Settled, SingleRoot, AboveBase, PrunedChain;
  }

  lemma PlaceStays(index: map<BlockId, Block>, index': map<BlockId, Block>, id: BlockId, producer: Producer)
    requires OnlyConfirmed(index, index', id, producer)
    ensures index'[id].num == index[id].num && index'[id].producers == index[id].producers
  {
  }

  lemma SameQuorum(b: Block, b': Block)
    requires b.confirmations == b'.confirmations && b.producers == b'.producers
    ensures HasQuorum(b) <==> HasQuorum(b')
  {
  }

  lemma DescendsItself(index: map<BlockId, Block>, id: BlockId)
    requires Linked(TreeOf(index)) && id in index
    ensures id in TreeOf(index) && Descends(TreeOf(index), id, id)
  {
  }

  /** With its raised number `x`, which is built on `id`, comes before the head `g`. */
  ghost predicate Overtakes(index: map<BlockId, Block>, id: BlockId, g: BlockId, x: BlockId)
    requires Linked(TreeOf(index)) && id in index && g in index
  {
    && x in index && Descends(TreeOf(index), id, x) && index[x].dpos == index[g].dpos
    && (var n, m := RaisedNumber(index, id, x), RaisedNumber(index, id, g);
        n > m || (n == m && index[x].num > index[g].num))
  }

  /** The head is no longer the best block after a confirmation. */
  ghost predicate Lags(index: map<BlockId, Block>, id: BlockId, producer: Producer, g: BlockId) {
    && Linked(TreeOf(index)) && id in index && g in index && Completes(index[id], producer)
    && exists x :: Overtakes(index, id, g, x)
  }

  lemma BestAfterConfirmationIff(index: map<BlockId, Block>, index': map<BlockId, Block>, id: BlockId, producer: Producer, g: BlockId)
    requires OnlyConfirmed(index, index', id, producer) && NumbersAfter(index, index', id, producer) && IsBest(index, g)
    ensures IsBest(index', g) <==> !Lags(index, id, producer, g)
  {
    hide Linked, TreeOf, Descends, Completes;
    if Lags(index, id, producer, g) {
      var x :| Overtakes(index, id, g, x);
      assert !NotBetter(index'[x], index'[g]);
    } else {
      forall x | x in index' ensures NotBetter(index'[x], index'[g]) {
        assert NotBetter(index[x], index[g]);
        if Completes(index[id], producer) {
          assert !Overtakes(index, id, g, x);
        }
      }
    }
  }

  lemma HeadAfterConfirmation(index: map<BlockId, Block>, index': map<BlockId, Block>, id: BlockId, producer: Producer,
                              head: Option<BlockId>)
    requires OnlyConfirmed(index, index', id, producer) && NumbersAfter(index, index', id, producer) && HeadIsBest(index, head)
    ensures HeadIsBest(index', head) <==> !(head.Some? && Lags(index, id, producer, head.value))
  {
    hide IsBest, Lags, NumbersAfter;
    SameKeysSameSize(index, index');
    if head.Some? {
      BestAfterConfirmationIff(index, index', id, producer, head.value);
    }
  }

  lemma SameKeysSameSize(index: map<BlockId, Block>, index': map<BlockId, Block>)
    requires index.Keys == index'.Keys
    ensures |index| == |index'|
  {
    assert |index.Keys| == |index| && |index'.Keys| == |index'|;
  }

  lemma NoneRaised(index: map<BlockId, Block>, id: BlockId, producer: Producer)
    requires Linked(TreeOf(index)) && id in index && !Completes(index[id], producer)
    ensures NumbersAfter(index, index[id := WithConfirmation(index[id], producer)], id, producer)
  {
    hide Linked, TreeOf, Completes;
  }

  lemma WithoutIsPart(index: map<BlockId, Block>, gone: set<BlockId>)
    ensures Part(Without(index, gone), index)
  {
  }

  lemma OutlastsItself(blocks: map<BlockId, Block>)
    ensures Outlasts(blocks, blocks)
  {
    SelfOutlives();
  }

  lemma RaisedIgnoresConfirmation(index: map<BlockId, Block>, id: BlockId, producer: Producer, x: BlockId)
    requires Linked(TreeOf(index)) && id in index && x in index
    ensures var index1 := index[id := WithConfirmation(index[id], producer)];
            Linked(TreeOf(index1)) && RaisedNumber(index1, id, x) == RaisedNumber(index, id, x)
  {
    hide Descends, HasQuorum;
    var index1 := index[id := WithConfirmation(index[id], producer)];
    SamePlacesLinked(index, index1);
    assert SameShape(TreeOf(index), TreeOf(index1));
    DescendsIgnoresQuorum(TreeOf(index), TreeOf(index1), id, x);
  }

  lemma RaisedAre(index: map<BlockId, Block>, id: BlockId, producer: Producer, index': map<BlockId, Block>)
    requires Linked(TreeOf(index)) && id in index && Completes(index[id], producer) && index'.Keys == index.Keys
    requires var index1 := index[id := WithConfirmation(index[id], producer)];
             Linked(TreeOf(index1)) && forall x :: x in index' ==> index'[x].bft == RaisedNumber(index1, id, x)
    ensures NumbersAfter(index, index', id, producer)
  {
    hide Linked, TreeOf, Descends, Completes, RaisedNumber;
    forall x | x in index ensures index'[x].bft == RaisedNumber(index, id, x) {
      RaisedIgnoresConfirmation(index, id, producer, x);
    }
  }

  /** A confirmation that completes no quorum, or comes after the quorum, changes no number. */
  lemma ConfirmationWithoutQuorum(tree: Tree, base: nat, index: map<BlockId, Block>, pruned: seq<BlockId>,
                                  id: BlockId, producer: Producer)
    requires Recorded(tree, base, index, pruned, id, producer)
    requires var b := WithConfirmation(index[id], producer); !(b.bft < b.num && HasQuorum(b))
    ensures var b := WithConfirmation(index[id], producer);
            && Sound(tree[id := NodeOf(b)], base, index[id := b], pruned)
            && OnlyConfirmed(index, index[id := b], id, producer)
  {
    hide ClosestQuorum, Linked, AboveBase, SingleRoot, PrunedChain, HasQuorum, ConfirmationsValid, Settled;
    var b := WithConfirmation(index[id], producer);
    QuorumStands(index[id], producer);
    ShapeStaysWellFormed(tree, tree[id := NodeOf(b)], base, index, index[id := b], pruned);
    if HasQuorum(b) && !HasQuorum(index[id]) {
      ExactAtBlock(tree, base, id);
      forall x | x in index
        ensures ClosestQuorum(tree[id := NodeOf(b)], base, x) == ClosestQuorum(tree, base, x)
      {
        ClosestQuorumIsLargest(tree, base, x);
        QuorumRaisesDescendants(tree, base, id, x);
      }
    } else {
      assert tree[id := NodeOf(b)] == tree;
    }
  }

  /** A confirmation that completes a quorum keeps the numbers exact once the blocks built on
      the confirmed block are raised. */
  lemma ConfirmationWithQuorum(tree: Tree, base: nat, index: map<BlockId, Block>, pruned: seq<BlockId>,
                               id: BlockId, producer: Producer, raised: map<BlockId, Block>)
    requires Recorded(tree, base, index, pruned, id, producer)
    requires var b := WithConfirmation(index[id], producer);
             && b.bft < b.num && HasQuorum(b)
             && Linked(TreeOf(index[id := b]))
             && raised.Keys == index.Keys
             && forall x :: x in raised ==>
                  raised[x] == index[id := b][x].(bft := RaisedNumber(index[id := b], id, x))
    ensures var t := tree[id := NodeOf(WithConfirmation(index[id], producer))];
            Sound(t, base, raised, pruned)
  {
    hide ClosestQuorum, Linked, AboveBase, SingleRoot, PrunedChain, HasQuorum, ConfirmationsValid, Settled, Descends, NodeOf, RaisedNumber;
    var b := WithConfirmation(index[id], producer);
    var t := tree[id := NodeOf(b)];
    ConfirmedNodes(tree, base, index, pruned, id, producer, raised);
    QuorumNode(tree, base, index, pruned, id, b);
    ShapeStaysWellFormed(tree, t, base, index, raised, pruned);
    IndexIsLinked(tree, base, index, pruned);
    ExactAtBlock(tree, base, id);
    forall x | x in index
      ensures raised[x].bft == RaisedNumber(index, id, x)
    {
      RaisedAlike(index, id, b, x);
    }
    RaisedIsExact(tree, base, index, pruned, id, raised);
  }

  lemma ConfirmedNodes(tree: Tree, base: nat, index: map<BlockId, Block>, pruned: seq<BlockId>,
                       id: BlockId, producer: Producer, raised: map<BlockId, Block>)
    requires Recorded(tree, base, index, pruned, id, producer) && raised.Keys == index.Keys
    requires var b := WithConfirmation(index[id], producer);
             forall x :: x in raised ==> raised[x] == index[id := b][x].(bft := raised[x].bft)
    ensures var t := tree[id := NodeOf(WithConfirmation(index[id], producer))];
            && SameShape(tree, t)
            && forall x :: x in raised ==> t[x] == NodeOf(raised[x]) && ConfirmationsValid(raised[x])
  {
    hide ClosestQuorum, Linked, AboveBase, SingleRoot, PrunedChain, HasQuorum, ConfirmationsValid, Settled, Exact;
    var b := WithConfirmation(index[id], producer);
    QuorumStands(index[id], producer);
    forall x | x in raised
      ensures tree[id := NodeOf(b)][x] == NodeOf(raised[x]) && ConfirmationsValid(raised[x])
    {
      FinalityIsNoConfirmation(index[id := b][x], raised[x].bft);
    }
  }

  lemma QuorumNode(tree: Tree, base: nat, index: map<BlockId, Block>, pruned: seq<BlockId>, id: BlockId, b: Block)
    requires WellFormed(tree, base, index, pruned) && id in index && HasQuorum(b)
    requires b == index[id].(confirmations := b.confirmations)
    ensures NodeOf(b) == tree[id].(quorum := true)
  {
    hide Linked, AboveBase, SingleRoot, PrunedChain, ConfirmationsValid;
  }

  lemma RaisedAlike(index: map<BlockId, Block>, id: BlockId, b: Block, x: BlockId)
    requires id in index && x in index && Linked(TreeOf(index)) && Linked(TreeOf(index[id := b]))
    requires b == index[id].(confirmations := b.confirmations)
    ensures RaisedNumber(index[id := b], id, x) == RaisedNumber(index, id, x)
  {
    hide Descends, Linked, HasQuorum;
    DescendsIgnoresQuorum(TreeOf(index), TreeOf(index[id := b]), id, x);
  }

  lemma RaisedOnlyConfirms(index: map<BlockId, Block>, id: BlockId, producer: Producer, raised: map<BlockId, Block>)
    requires id in index
    requires var confirmed := index[id := WithConfirmation(index[id], producer)];
             && Linked(TreeOf(confirmed))
             && raised.Keys == index.Keys
             && forall x :: x in raised ==> raised[x] == confirmed[x].(bft := RaisedNumber(confirmed, id, x))
    ensures OnlyConfirmed(index, raised, id, producer)
  {
    hide Linked, TreeOf, RaisedNumber;
    RaisingRaises(index[id := WithConfirmation(index[id], producer)], id);
  }

  lemma QuorumCanSpread(tree: Tree, base: nat, index: map<BlockId, Block>, pruned: seq<BlockId>,
                        id: BlockId, producer: Producer)
    requires Recorded(tree, base, index, pruned, id, producer)
    ensures var b := WithConfirmation(index[id], producer);
            Linked(TreeOf(index[id := b])) && Ascending(index[id := b], {})
  {
    hide ClosestQuorum, AboveBase, SingleRoot, PrunedChain, HasQuorum, ConfirmationsValid, Settled, Descends;
    IndexIsLinked(tree, base, index, pruned);
    ExactIsAscending(tree, base, index, pruned);
  }

  lemma RaisingRaises(index: map<BlockId, Block>, id: BlockId)
    requires Linked(TreeOf(index)) && id in index
    ensures forall x :: x in index ==> index[x].bft <= RaisedNumber(index, id, x)
  {
  }

  lemma FinalityIsNoConfirmation(b: Block, n: nat)
    ensures NodeOf(b.(bft := n)) == NodeOf(b)
    ensures ConfirmationsValid(b.(bft := n)) == ConfirmationsValid(b)
  {
  }

  lemma {:induction false} DescendsIgnoresQuorum(t: Tree, t': Tree, a: BlockId, id: BlockId)
    requires SameShape(t, t') && Linked(t) && Linked(t') && id in t
    ensures Descends(t', a, id) <==> Descends(t, a, id)
    decreases t[id].num
  {
    if id != a && t[id].previous in t {
      DescendsIgnoresQuorum(t, t', a, t[id].previous);
    }
  }

  lemma QuorumStands(b: Block, producer: Producer)
    requires ConfirmationsValid(b) && producer in b.producers && producer !in b.confirmations
    ensures ConfirmationsValid(b.(confirmations := b.confirmations + [producer]))
    ensures HasQuorum(b) ==> HasQuorum(b.(confirmations := b.confirmations + [producer]))
  {
  }

  lemma ExactAtBlock(tree: Tree, base: nat, id: BlockId)
    requires Linked(tree) && AboveBase(tree, base) && id in tree
    ensures ClosestQuorum(tree, base, id) <= tree[id].num
    ensures tree[id].quorum ==> ClosestQuorum(tree, base, id) == tree[id].num
    ensures ClosestQuorum(tree, base, id) == tree[id].num && base < tree[id].num ==> tree[id].quorum
  {
    if !tree[id].quorum && tree[id].previous in tree {
      ClosestQuorumIsLargest(tree, base, tree[id].previous);
    }
  }

  lemma OneBlockIsSound(id: BlockId, s: Block)
    requires s.previous != id && ConfirmationsValid(s) && s.bft <= s.num && (HasQuorum(s) ==> s.bft == s.num)
    ensures Sound(map[id := NodeOf(s)], s.bft, map[id := s], [])
  {
    hide ConfirmationsValid, HasQuorum;
    var tree: Tree := map[id := NodeOf(s)];
    assert Linked(tree);
    assert ClosestQuorum(tree, s.bft, id) == s.bft;
  }

  /** What choosing the head does to the database: nothing, or the oldest block is reported and what
      is built on it stays, exactly when that block is below the number the best block makes
      irreversible. */
  ghost predicate Advanced(tree0: Tree, all: map<BlockId, Block>, reported: seq<BlockId>, tree: Tree,
                           index: map<BlockId, Block>, irreversible: seq<BlockId>)
  {
    && Upper(tree, tree0) && PrunesIff(all, irreversible != reported)
    && (irreversible == reported ==> index == all)
    && (irreversible != reported ==>
          && |irreversible| > 0 && irreversible[..|irreversible| - 1] == reported
          && Part(index, all)
          && IsOldest(all, irreversible[|irreversible| - 1])
          && KeepsDescendants(tree0, all, index, irreversible[|irreversible| - 1]))
  }

  lemma OneBlockIsRemembered(id: BlockId, s: Block)
    requires s.previous != id && ConfirmationsValid(s)
    ensures Remembers(map[id := s], map[id := s])
  {
    hide ConfirmationsValid, HasQuorum;
    SelfOutlives();
  }

  class ForkDatabase {
    var index: map<BlockId, Block>
    var head: Option<BlockId>
    /** The blocks reported through the irreversible signal, in order. */
    var irreversible: seq<BlockId>
    /** Every block of the database and every block reported irreversible. */
    ghost var tree: Tree
    /** Every block the database ever held, with all its confirmations. */
    ghost var ever: map<BlockId, Block>
    /** The final block number the first block started from. */
    ghost const base: nat

    ghost predicate Valid()
      reads this
    {
      Sound(tree, base, index, irreversible)
    }

    /** Starts from one block whose state is trusted. */
    constructor (id: BlockId, s: Block)
      requires s.previous != id && ConfirmationsValid(s)
      requires s.bft <= s.num && (HasQuorum(s) ==> s.bft == s.num)
      ensures Valid() && index == map[id := s] && head == Some(id) && irreversible == [] && base == s.bft
      ensures Remembers(ever, index)
    {
      hide Sound, NodeOf, HasQuorum, ConfirmationsValid, Remembers;
      OneBlockIsSound(id, s);
      OneBlockIsRemembered(id, s);
      index, head, irreversible := map[id := s], Some(id), [];
      tree, base, ever := map[id := NodeOf(s)], s.bft, map[id := s];
    }

    /** Records a confirmation; if it completes a quorum the block becomes final and so do, up
        to its number, all blocks built on it. A refused confirmation changes nothing. */
    method AddConfirmation(id: BlockId, producer: Producer, signed: bool) returns (r: ConfirmResult)
      requires Valid()
      modifies this`index, this`tree, this`ever
      ensures Valid()
      ensures r.UnknownBlock? <==> id !in old(index)
      ensures r.DoubleConfirm? <==> id in old(index) && producer in Confirmers(old(index)[id])
      ensures r.NotInSchedule? <==> id in old(index) && producer !in Confirmers(old(index)[id]) && producer !in old(index)[id].producers
      ensures r.Confirmed? <==>
                id in old(index) && producer !in Confirmers(old(index)[id]) && producer in old(index)[id].producers && signed
      ensures !r.Confirmed? ==> index == old(index) && tree == old(tree) && ever == old(ever)
      ensures r.Confirmed? ==> OnlyConfirmed(old(index), index, id, producer) && NumbersAfter(old(index), index, id, producer)
      ensures r.Confirmed? ==>
                && FinalAfter(old(index), index, id) && Confirmers(index[id]) == Confirmers(old(index)[id]) + {producer}
                && (index[id].bft != old(index)[id].bft <==>
                      old(index)[id].bft < index[id].num && 3 * |Confirmers(index[id])| > 2 * |index[id].producers|)
                && (index[id].bft != old(index)[id].bft ==> index[id].bft == index[id].num)
      ensures r.Confirmed? && HeadIsBest(old(index), head) ==>
                (HeadIsBest(index, head) <==> !(head.Some? && Lags(old(index), id, producer, head.value)))
      ensures Behind(old(index)) ==> Behind(index)
      ensures Remembers(old(ever), old(index)) ==> Remembers(ever, index) && Outlasts(old(ever), ever)
    {
      hide Sound, HasQuorum, RaisedNumber, TreeOf, Ascending, Linked, OnlyConfirmed, NodeOf, Behind, Remembers, Outlasts, NumbersAfter, Lags,
           HeadIsBest, WithConfirmer, WellFormed, Exact, FinalAfter, ConfirmationsValid;
      OutlastsItself(ever);
      if id in index {
        OneMoreConfirmer(index[id], producer);
      }
      r := ConfirmationVerdict(index, id, producer, signed);
      if !r.Confirmed? {
        return;
      }
      var b := index[id].(confirmations := index[id].confirmations + [producer]);
      assert b == WithConfirmation(index[id], producer);
      ghost var index0, tree0 := index, tree;
      assert Recorded(tree0, base, index0, irreversible, id, producer);
      SoundParts(tree, base, index, irreversible);
      IndexIsLinked(tree, base, index, irreversible);
      if b.bft < b.num && HasQuorum(b) {
        QuorumCanSpread(tree0, base, index0, irreversible, id, producer);
        index := index[id := b];
        SetBftIrreversible(id);
        ConfirmationWithQuorum(tree0, base, index0, irreversible, id, producer, index);
        RaisedOnlyConfirms(index0, id, producer, index);
        RaisedAre(index0, id, producer, index);
      } else {
        ConfirmationWithoutQuorum(tree0, base, index0, irreversible, id, producer);
        index := index[id := b];
        NoneRaised(index0, id, producer);
      }
      tree := tree[id := NodeOf(b)];
      ever := WithConfirmer(ever, id, producer);
      ValidBlock(tree, base, index, irreversible, id);
      NumbersAreFinal(index0, index, id, producer);
      PlaceStays(index0, index, id, producer);
      if Behind(index0) {
        ConfirmedIsBehind(index0, index, id, producer);
      }
      if Remembers(old(ever), index0) {
        ConfirmingIsRemembered(old(ever), index0, index, id, producer);
      }
      if HeadIsBest(index0, head) {
        HeadAfterConfirmation(index0, index, id, producer, head);
      }
    }

    /** The first block in the order of the fork choice; none in an empty database. */
    method Best() returns (h: Option<BlockId>)
      ensures HeadIsBest(index, h)
    {
      if |index| == 0 {
        return None;
      }
      assert index.Keys != {};
      ghost var g := BestExists(index, index.Keys);
      assert IsBest(index, g);
      var b :| b in index && IsBest(index, b);
      h := Some(b);
    }

    ghost predicate Trees()
      reads this
    {
      WellFormed(tree, base, index, irreversible) && Exact(tree, base, index)
    }

    /** The loop of `remove`: erases a block and the blocks built on it, layer by layer. */
    method EraseSubtree(id: BlockId)
      requires Linked(TreeOf(index))
      modifies this`index
      ensures index == Without(old(index), Subtree(old(index), id))
    {
      hide Removing, ToSet, Distinct, Linked, TreeOf, Subtree, Without, ClosedUpwards;
      ghost var index0 := index;
      var queue := [id];
      StartRemoving(index, id);
      var i := 0;
      assert queue[..0] == [];
      while i < |queue|
        invariant 0 <= i <= |queue| && Distinct(queue)
        invariant Removing(index0, id, ToSet(queue[..i]), ToSet(queue))
        invariant index == Without(index0, ToSet(queue[..i]))
        invariant i > 0 ==> id in ToSet(queue[..i])
        decreases |index| + (if i == 0 then 1 else 0)
      {
        DistinctElement(queue, i);
        ghost var before := index;
        index := index - {queue[i]};
        var children := set c | c in index && index[c].previous == queue[i];
        RemovalProgress(index0, id, queue, i, before);
        RemovalStep(index0, id, ToSet(queue[..i]), ToSet(queue), queue[i], children);
        ghost var queue0 := queue;
        queue := AppendAll(queue, children);
        assert queue[..i + 1] == queue0[..i + 1];
        i := i + 1;
      }
      assert queue[..i] == queue;
      RemovalDone(index0, id, ToSet(queue));
    }

    /** Removes a block and exactly the blocks built on it, then chooses the head anew. */
    method Remove(id: BlockId)
      requires Trees()
      modifies this`index, this`tree, this`head
      ensures Trees()
      ensures Linked(TreeOf(old(index)))
      ensures index == Without(old(index), Subtree(old(index), id))
      ensures tree == WithoutNodes(old(tree), Subtree(old(index), id))
      ensures HeadIsBest(index, head)
      ensures old(Valid()) ==> Valid()
      ensures Remembers(ever, old(index)) ==> Remembers(ever, index)
    {
      hide Remembers, WellFormed, Exact, Settled, Linked, TreeOf, Subtree, IsBest, Without, WithoutNodes;
      IndexIsLinked(tree, base, index, irreversible);
      RemoveSubtreeKeepsTree(tree, base, index, irreversible, id);
      EraseSubtree(id);
      tree := WithoutNodes(tree, Subtree(old(index), id));
      head := Best();
      if Remembers(ever, old(index)) {
        WithoutIsPart(old(index), Subtree(old(index), id));
        PartIsRemembered(ever, old(index), index);
      }
    }

    /** The first block by number, blocks of the current chain first. */
    method Oldest() returns (h: BlockId)
      requires |index| > 0
      ensures IsOldest(index, h)
    {
      assert index.Keys != {};
      ghost var g := OldestExists(index, index.Keys);
      assert IsOldest(index, g);
      h :| h in index && IsOldest(index, h);
    }

    /** Frees everything up to the number of `h`: reports blocks irreversible from the lowest
        number on, one per number, and removes their rivals with all blocks built on them. If
        `h` itself is reported, exactly the blocks built on it are left. */
    method Prune(h: BlockId)
      requires Valid() && h in index
      modifies this`index, this`tree, this`head, this`irreversible
      ensures Valid() && Part(index, old(index)) && Upper(tree, old(tree))
      ensures old(irreversible) <= irreversible
      ensures forall x :: x in index ==> index[x].num > old(index)[h].num
      ensures (forall x :: x in old(index) ==> old(index)[x].num >= old(index)[h].num) ==>
                irreversible == old(irreversible) + [h]
      ensures irreversible != old(irreversible) && irreversible[|irreversible| - 1] == h ==>
                KeepsDescendants(old(tree), old(index), index, h)
      ensures HeadIsBest(old(index), old(head)) && HeadAbove(old(index), old(head), old(index)[h].num) ==>
                (forall x :: x in old(index) ==> old(index)[x].num >= old(index)[h].num) ==> HeadIsBest(index, head)
      ensures Remembers(ever, old(index)) ==> Remembers(ever, index)
      decreases index[h].num, 1
    {
      hide Sound, WellFormed, Exact, Settled, TreeOf, Linked, Upper, KeepsDescendants, HeadIsBest, HeadAbove, Remembers;
      var num := index[h].num;
      ghost var index0, tree0, reported := index, tree, irreversible;
      PruneBelow(num);
      ghost var index1, tree1, reported1 := index, tree, irreversible;
      PruneLevel(h, num);
      UpperIsTransitive(tree, tree1, tree0);
      if h in index1 && reported1 != reported {
        DescendsFromReported(tree0, index0, tree1, base, index1, reported1, index, h);
      }
      if Remembers(ever, index0) {
        PartIsRemembered(ever, index0, index);
      }
    }

    /** Prunes the oldest block as long as its number is lower. */
    method PruneBelow(num: nat)
      requires Valid()
      modifies this`index, this`tree, this`head, this`irreversible
      ensures Valid() && PrunedBelow(old(tree), old(index), old(irreversible), tree, index, irreversible, num)
      ensures forall x :: x in index ==> index[x].num >= num
      ensures (forall x :: x in old(index) ==> old(index)[x].num >= num) ==> head == old(head)
      decreases num, 0
    {
      hide Sound, PrunedBelow, Upper, KeepsDescendants, NotOlder;
      ghost var index0, tree0, reported := index, tree, irreversible;
      NonePruned(tree, index, irreversible, num);
      while |index| > 0
        invariant Valid() && PrunedBelow(tree0, index0, reported, tree, index, irreversible, num)
        invariant (forall x :: x in index0 ==> index0[x].num >= num) ==> index == index0 && head == old(head)
        decreases |index|
      {
        var oldest := Oldest();
        NoneIsLower(index, oldest);
        if index[oldest].num >= num {
          break;
        }
        ghost var index1, tree1, reported1 := index, tree, irreversible;
        Prune(oldest);
        FewerBlocks(index1, index, oldest);
        PrunedOneMore(tree0, index0, reported, tree1, base, index1, reported1, tree, index, irreversible, num, oldest);
      }
    }

    /** Reports `h`, if it is still there, and removes all other blocks of its number. */
    method PruneLevel(h: BlockId, num: nat)
      requires Valid() && (h in index ==> index[h].num == num)
      requires forall x :: x in index ==> index[x].num >= num
      modifies this`index, this`tree, this`head, this`irreversible
      ensures Valid() && Part(index, old(index)) && Upper(tree, old(tree))
      ensures irreversible == old(irreversible) + (if h in old(index) then [h] else [])
      ensures forall x :: x in index ==> index[x].num > num
      ensures h in old(index) ==> KeepsDescendants(old(tree), old(index), index, h)
      ensures HeadIsBest(old(index), old(head)) && HeadAbove(old(index), old(head), num) ==> HeadIsBest(index, head)
    {
      hide Sound, WellFormed, Exact, Settled, OnlyRivalsGone, KeepsDescendants, Upper, HeadIsBest, HeadAbove;
      SoundParts(tree, base, index, irreversible);
      if h in index {
        NodesInTree(tree, base, index, irreversible);
        EraseKeepsTree(tree, base, index, irreversible, h);
        if HeadIsBest(index, head) && HeadAbove(index, head, num) {
          HeadStays(index, head, h);
        }
        irreversible := irreversible + [h];
        ghost var index0, tree0 := index, tree;
        index := index - {h};
        ghost var index1 := index;
        RemoveRivals(h, num);
        RivalsHaveNoCommonDescendants(tree0, index0, index1, index, h, num);
        SettledAbove(tree, base, index, irreversible);
        SoundWhole(tree, base, index, irreversible);
      } else {
        RemoveRivals(h, num);
      }
    }

    /** Removes all blocks of the given number with the blocks built on them. */
    method RemoveRivals(ghost h: BlockId, num: nat)
      requires Trees() && h !in index
      modifies this`index, this`tree, this`head
      ensures Trees() && Part(index, old(index)) && (old(Valid()) ==> Valid())
      ensures forall x :: x in index ==> index[x].num != num
      ensures h in old(tree) ==> h in tree && tree[h] == old(tree)[h]
      ensures Upper(tree, old(tree)) && OnlyRivalsGone(old(tree), old(index), index, num)
      ensures HeadIsBest(old(index), old(head)) ==> HeadIsBest(index, head)
    {
      hide Sound, WellFormed, Exact, Settled, TreeOf, Linked, Without, WithoutNodes, Subtree, IsBest, Upper, OnlyRivalsGone;
      ghost var index0, tree0 := index, tree;
      UpperItself(tree);
      NoneGone(tree, base, index, irreversible, num);
      while exists x :: x in index && index[x].num == num
        invariant Trees() && Part(index, index0) && (old(Valid()) ==> Valid())
        invariant h in tree0 ==> h in tree && tree[h] == tree0[h]
        invariant Upper(tree, tree0) && OnlyRivalsGone(tree0, index0, index, num)
        invariant HeadIsBest(index0, old(head)) ==> HeadIsBest(index, head)
        decreases |index|
      {
        var x :| x in index && index[x].num == num;
        IndexIsLinked(tree, base, index, irreversible);
        RemovedPart(index, x);
        KeptNode(tree, index, x, h);
        RivalsGoneStep(tree0, index0, tree, base, index, irreversible, num, x);
        RemovalStaysUpper(tree0, tree, base, index, irreversible, x);
        Remove(x);
      }
    }

    /** The rest of `add`, after the block is in the index: the head is chosen anew, and if it makes
        the oldest block irreversible that one is reported and its rivals are dropped. */
    method ChooseHead()
      requires Valid() && index.Keys != {}
      modifies this`index, this`tree, this`head, this`irreversible
      ensures Valid() && Advanced(old(tree), old(index), old(irreversible), tree, index, irreversible)
      ensures Behind(old(index)) ==> HeadIsBest(index, head) && Behind(index)
      ensures Remembers(ever, old(index)) ==> Remembers(ever, index)
    {
      hide Sound, Upper, KeepsDescendants, IsBest, IsOldest, HeadIsBest, HeadAbove, Behind, PrunesIff, Remembers;
      UpperItself(tree);
      head := Best();
      BestIsKnown(index, head);
      var lib := index[head.value].dpos;
      var oldest := Oldest();
      NoneIsLower(index, oldest);
      ghost var all := index;
      PruningIsDecided(index, head.value, oldest);
      if index[oldest].num < lib {
        if Behind(index) {
          BestIsBehind(index, head, index[oldest].num);
        }
        Prune(oldest);
        if Behind(all) {
          BehindPart(index, all);
        }
      }
    }

    /** Adds a block on top of a known one. The new block starts with no confirmations and the
        final block number of its parent. */
    method AddBlock(id: BlockId, previous: BlockId, producers: seq<Producer>, dpos: nat) returns (r: AddResult)
      requires Valid() && CollisionFree(tree, id, previous)
      modifies this`index, this`tree, this`ever, this`head, this`irreversible
      ensures Valid()
      ensures r == if id in old(index) then AlreadyKnown else if previous !in old(index) then Unlinkable else Added
      ensures !r.Added? ==> index == old(index) && tree == old(tree) && irreversible == old(irreversible) && head == old(head) && ever == old(ever)
      ensures r.Added? ==>
                var parent := old(index)[previous];
                var b := Block(previous, parent.num + 1, producers, [], parent.bft, dpos, false);
                var all := old(index)[id := b];
                && Advanced(old(tree)[id := NodeOf(b)], all, old(irreversible), tree, index, irreversible)
                && (Behind(all) ==> HeadIsBest(index, head) && Behind(index))
                && (Remembers(old(ever), old(index)) && NamesOne(old(ever), id, b) ==> Remembers(ever, index) && Outlasts(old(ever), ever))
    {
      hide Sound, CollisionFree, NodeOf, HeadIsBest, Behind, Remembers, Outlasts, NamesOne, WithBlock, Advanced;
      if id in index {
        return AlreadyKnown;
      }
      if previous !in index {
        return Unlinkable;
      }
      var b := NewBlock(index[previous], previous, producers, dpos);
      InsertKeepsSound(tree, base, index, irreversible, id, b);
      if Remembers(ever, index) && NamesOne(ever, id, b) {
        AddingIsRemembered(ever, index, previous, id, b);
      }
      ever := WithBlock(ever, id, b);
      index := index[id := b];
      tree := tree[id := NodeOf(b)];
      assert id in index.Keys;
      ChooseHead();
      r := Added;
    }

    /** Sets whether a block is part of the current chain. */
    method MarkInCurrentChain(id: BlockId, flag: bool) returns (ok: bool)
      requires Valid()
      modifies this`index
      ensures Valid()
      ensures ok <==> id in old(index)
      ensures index == if ok then old(index)[id := old(index)[id].(inCurrentChain := flag)] else old(index)
      ensures Behind(old(index)) ==> Behind(index)
      ensures Remembers(ever, old(index)) ==> Remembers(ever, index)
    {
      hide Sound, Remembers;
      ok := id in index;
      if ok {
        if Remembers(ever, index) {
          MarkIsRemembered(ever, index, id, flag);
        }
        MarkKeepsSound(tree, base, index, irreversible, id, flag);
        index := index[id := index[id].(inCurrentChain := flag)];
      }
    }

    /** Walks down from a block until the number of `level` is reached. */
    method WalkDown(from: BlockId, level: BlockId) returns (branch: seq<BlockId>, x: BlockId)
      requires Valid() && from in index && level in index
      ensures x in index && IsBranch(index, from, branch + [x])
      ensures index[from].num >= index[level].num ==> index[x].num == index[level].num
      ensures index[from].num <= index[level].num ==> x == from && branch == []
    {
      hide Sound, IsBranch;
      x, branch := from, [];
      BranchStarts(index, from);
      while index[x].num > index[level].num
        invariant x in index && IsBranch(index, from, branch + [x])
        invariant index[from].num >= index[level].num ==> index[x].num >= index[level].num
        invariant index[from].num <= index[level].num ==> x == from && branch == []
        decreases index[x].num
      {
        LowerHasParent(tree, base, index, irreversible, x, level);
        BranchGrows(index, from, branch, x);
        branch := branch + [x];
        x := index[x].previous;
      }
    }

    /** The two branches that lead from the given blocks down to blocks with the same
        predecessor. No predecessor that is needed is ever missing. They share a block exactly when
        one of the given blocks is built on the other, and then only that one. */
    method FetchBranchFrom(first: BlockId, second: BlockId) returns (firstBranch: seq<BlockId>, secondBranch: seq<BlockId>)
      requires Valid() && first in index && second in index
      ensures IsBranch(index, first, firstBranch) && IsBranch(index, second, secondBranch)
      ensures index[Last(firstBranch)].previous == index[Last(secondBranch)].previous
      ensures Linked(TreeOf(index)) && first in TreeOf(index) && second in TreeOf(index)
      ensures (exists x :: x in firstBranch && x in secondBranch) <==>
                Descends(TreeOf(index), second, first) || Descends(TreeOf(index), first, second)
      ensures forall x :: x in firstBranch && x in secondBranch ==> x == first || x == second
    {
      hide Sound, IsBranch, Apart, Linked, Descends, WellFormed, Exact;
      var f, s;
      firstBranch, f := WalkDown(first, second);
      secondBranch, s := WalkDown(second, f);
      NothingShared(firstBranch + [f], secondBranch + [s]);
      while index[f].previous != index[s].previous
        invariant f in index && s in index && index[f].num == index[s].num
        invariant IsBranch(index, first, firstBranch + [f]) && IsBranch(index, second, secondBranch + [s])
        invariant Apart(firstBranch + [f], secondBranch + [s])
        decreases index[f].num
      {
        LevelHasParents(tree, base, index, irreversible, f, s);
        BranchGrows(index, first, firstBranch, f);
        BranchGrows(index, second, secondBranch, s);
        StillApart(firstBranch + [f], secondBranch + [s], index[f].previous, index[s].previous);
        firstBranch := firstBranch + [f];
        secondBranch := secondBranch + [s];
        f, s := index[f].previous, index[s].previous;
      }
      firstBranch := firstBranch + [f];
      secondBranch := secondBranch + [s];
      BranchIsKnown(index, first, firstBranch);
      BranchIsKnown(index, second, secondBranch);
      SoundParts(tree, base, index, irreversible);
      IndexIsLinked(tree, base, index, irreversible);
      BranchesMeetIff(index, first, firstBranch, second, secondBranch);
    }

    /** One layer of the traversal: raises the children of the given blocks to `n` and returns
        the children that were raised. The children of a block are visited in any order. */
    method UpdateLayer(layer: seq<BlockId>, n: nat, ghost before: map<BlockId, Block>, ghost root: BlockId)
      returns (updated: seq<BlockId>)
      requires Wave(before, index, n, root, ToSet(layer))
      modifies this`index
      ensures Wave(before, index, n, root, ToSet(updated))
      ensures updated == [] ==> Low(index, n) == Low(old(index), n)
      ensures updated != [] ==> Low(index, n) < Low(old(index), n)
    {
      hide Wave, ToSet, Low;
      updated := [];
      EmptyToSet();
      assert layer[0..] == layer && ToSet(layer) + {} == ToSet(layer);
      for k := 0 to |layer|
        invariant Wave(before, index, n, root, ToSet(layer[k..]) + ToSet(updated))
        invariant updated == [] ==> Low(index, n) == Low(old(index), n)
        invariant updated != [] ==> Low(index, n) < Low(old(index), n)
      {
        ToSetOfTail(layer, k);
        updated := RaiseChildren(layer[k], n, before, root, ToSet(layer[k..]), updated);
        WaveMovesOn(before, index, n, root, ToSet(layer[k..]) + ToSet(updated), ToSet(layer[k + 1..]) + ToSet(updated), layer[k]);
      }
      assert layer[|layer|..] == [];
      assert {} + ToSet(updated) == ToSet(updated);
    }

    /** Raises the lower children of one block and adds them to those updated. */
    method RaiseChildren(i: BlockId, n: nat, ghost before: map<BlockId, Block>, ghost root: BlockId, ghost pending: set<BlockId>,
                         updated: seq<BlockId>)
      returns (r: seq<BlockId>)
      requires Wave(before, index, n, root, pending + ToSet(updated)) && i in pending
      modifies this`index
      ensures Wave(before, index, n, root, pending + ToSet(r))
      ensures forall id :: id in index && index[id].previous == i ==> index[id].bft >= n
      ensures r == updated ==> Low(index, n) == Low(old(index), n)
      ensures r != updated ==> Low(index, n) < Low(old(index), n) && r != []
    {
      hide Wave, ToSet, Low;
      r := updated;
      var children := set id | id in index && index[id].previous == i;
      while children != {}
        invariant forall id :: id in children ==> id in index && index[id].previous == i
        invariant forall id :: id in index && index[id].previous == i && id !in children ==> index[id].bft >= n
        invariant Wave(before, index, n, root, pending + ToSet(r)) && |updated| <= |r|
        invariant r == updated ==> Low(index, n) == Low(old(index), n)
        invariant r != updated ==> Low(index, n) < Low(old(index), n) && |updated| < |r|
        decreases children
      {
        var c :| c in children;
        if index[c].bft < n {
          WaveRaises(before, index, n, root, pending + ToSet(r), i, c);
          ToSetOfAppended(r, c);
          assert pending + ToSet(r + [c]) == pending + ToSet(r) + {c};
          index := index[c := index[c].(bft := n)];
          r := r + [c];
        }
        children := children - {c};
      }
    }

    /** Marks a block final and raises every block built on it. */
    method SetBftIrreversible(id: BlockId)
      requires Linked(TreeOf(index)) && Ascending(index, {})
      requires id in index && index[id].bft < index[id].num
      modifies this`index
      ensures index.Keys == old(index).Keys
      ensures forall b :: b in index ==> index[b] == old(index)[b].(bft := RaisedNumber(old(index), id, b))
    {
      hide Wave, ToSet, Low;
      ghost var before := index;
      var n := index[id].num;
      StartWave(index, n, id);
      index := index[id := index[id].(bft := n)];
      var queue := [id];
      while |queue| > 0
        invariant Wave(before, index, n, id, ToSet(queue))
        decreases Low(index, n), |queue|
      {
        queue := UpdateLayer(queue, n, before, id);
      }
      EmptyToSet();
      EndWave(before, index, n, id);
    }
  }

  lemma StartWave(index: map<BlockId, Block>, n: nat, id: BlockId)
    requires Linked(TreeOf(index)) && Ascending(index, {})
    requires id in index && index[id].bft < n == index[id].num
    ensures Wave(index, index[id := index[id].(bft := n)], n, id, ToSet([id]))
  {
    RaiseOne(index, index, n, id, id);
    assert ToSet([id]) == {id} by {
      assert [id][0] == id;
    }
  }

  lemma EndWave(before: map<BlockId, Block>, index: map<BlockId, Block>, n: nat, root: BlockId)
    requires Wave(before, index, n, root, {}) && root in before && n == before[root].num
    ensures index.Keys == before.Keys
    ensures forall b :: b in before ==> index[b] == before[b].(bft := RaisedNumber(before, root, b))
  {
    forall b | b in before
      ensures index[b] == before[b].(bft := RaisedNumber(before, root, b))
    {
      if Descends(TreeOf(before), root, b) {
        DescendantsReachRoot(index, root, b);
      }
    }
  }
}
