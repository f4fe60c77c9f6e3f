/** A fork database in which a confirmation leaves a head that is not the best block. */
module ForkCases {
  import opened Options
  import opened ForkDb

  const PRODUCERS: seq<Producer> := [7]

  const ROOT := Block(0, 1, PRODUCERS, [], 0, 0, false)

  function Child(parent: BlockId, num: nat): Block {
    Block(parent, num, PRODUCERS, [], 0, 0, false)
  }

  lemma RootIsTrusted()
    ensures ConfirmationsValid(ROOT) && ROOT.bft <= ROOT.num && !HasQuorum(ROOT) && ROOT.previous != 1
  {
  }

  /** As long as nothing was reported, the tree is that of the index. */
  lemma TreeIsIndex(tree: Tree, base: nat, index: map<BlockId, Block>)
    requires Sound(tree, base, index, [])
    ensures tree.Keys == index.Keys && forall x :: x in index ==> tree[x].previous == index[x].previous
  {
    hide Exact, Linked, AboveBase, SingleRoot, ConfirmationsValid, HasQuorum;
  }

  lemma NothingPruned(all: map<BlockId, Block>, pruned: bool)
    requires PrunesIff(all, pruned) && all.Keys != {} && forall x :: x in all ==> all[x].dpos == 0
    ensures !pruned
  {
    var g := BestExists(all, all.Keys);
    var o := OldestExists(all, all.Keys);
    assert IsBest(all, g) && IsOldest(all, o);
  }

  lemma IsNew(tree: Tree, base: nat, index: map<BlockId, Block>, id: BlockId, previous: BlockId)
    requires Sound(tree, base, index, []) && id !in index && forall x :: x in index ==> index[x].previous != id
    ensures CollisionFree(tree, id, previous)
  {
    hide Sound;
    TreeIsIndex(tree, base, index);
  }

  /** A block is added to a database from which nothing was pruned. */
  method Grow(db: ForkDatabase, id: BlockId, previous: BlockId)
    requires db.Valid() && db.irreversible == [] && id !in db.index && previous in db.index
    requires forall x :: x in db.index ==> db.index[x].previous != id && db.index[x].dpos == 0 && db.index[x].bft == 0
    modifies db
    ensures db.Valid() && db.irreversible == [] && HeadIsBest(db.index, db.head)
    ensures db.index == old(db.index)[id := NewBlock(old(db.index)[previous], previous, PRODUCERS, 0)]
  {
    hide Sound, CollisionFree, PrunesIff, HeadIsBest, NodeOf;
    ghost var all := db.index[id := NewBlock(db.index[previous], previous, PRODUCERS, 0)];
    IsNew(db.tree, db.base, db.index, id, previous);
    var r := db.AddBlock(id, previous, PRODUCERS, 0);
    assert id in all.Keys;
    NothingPruned(all, db.irreversible != []);
  }

  /** The longer branch has blocks 2 and 4, the other one block 3. */
  function TwoForks(): map<BlockId, Block> {
    map[1 := ROOT, 2 := Child(1, 2), 3 := Child(1, 2), 4 := Child(2, 3)]
  }

  lemma ForksAre(index: map<BlockId, Block>)
    requires index == map[1 := ROOT][2 := Child(1, 2)][3 := Child(1, 2)][4 := Child(2, 3)]
    ensures index == TwoForks() && 3 in index && ConfirmationVerdict(index, 3, 7, true) == Confirmed
  {
  }

  lemma LongerIsBest(h: Option<BlockId>)
    requires HeadIsBest(TwoForks(), h)
    ensures h == Some(4)
  {
    var index := TwoForks();
    assert 4 in index.Keys && |index.Keys| == |index|;
    assert NotBetter(index[4], index[h.value]);
  }

  lemma ForksAreLinked()
    ensures Linked(TreeOf(TwoForks()))
    ensures Descends(TreeOf(TwoForks()), 3, 3) && !Descends(TreeOf(TwoForks()), 3, 4)
  {
    var t := TreeOf(TwoForks());
    assert t[4].previous == 2 && t[2].previous == 1 && t[1].previous == 0 && t[3].previous == 1;
    assert !Descends(t, 3, 1);
    assert !Descends(t, 3, 2);
  }

  lemma ShorterOvertakes()
    ensures Lags(TwoForks(), 3, 7, 4)
  {
    hide Linked, TreeOf, Descends;
    ForksAreLinked();
    var index := TwoForks();
    assert Completes(index[3], 7);
    assert Overtakes(index, 3, 4, 3);
  }

  /** One producer, two branches: its confirmation of the shorter branch makes block 3 the best block,
      and the head stays block 4. */
  method HeadMayLag() returns (db: ForkDatabase)
    ensures fresh(db) && db.Valid() && db.head == Some(4) && !HeadIsBest(db.index, db.head)
  {
    hide Sound, HeadIsBest, HasQuorum, ConfirmationsValid, Lags, Remembers, IsBest, Outlasts, Behind, NumbersAfter, OnlyConfirmed, TwoForks;
    RootIsTrusted();
    db := new ForkDatabase(1, ROOT);
    Grow(db, 2, 1);
    Grow(db, 3, 1);
    Grow(db, 4, 2);
    ForksAre(db.index);
    LongerIsBest(db.head);
    ShorterOvertakes();
    var r := db.AddConfirmation(3, 7, true);
  }
}
