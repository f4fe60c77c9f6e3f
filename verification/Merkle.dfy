/** The two ways the chain computes a Merkle root of a list of digests: the batch form, which
    halves the whole list level by level, and the incremental form, which keeps only a
    logarithmic number of active nodes and is extended one digest at a time. The incremental
    form is proved to give the batch root after every append.

    Hashing is a parameter: `hash(l, r)` stands for the digest of the canonical pair of
    `l` and `r`, and `zero` for the default digest. */
module Merkle {

  // ----- the batch form -----

  function Last<D>(s: seq<D>): D
    requires s != []
  {
    s[|s| - 1]
  }

  /** Parents of the nodes that have a right sibling; an unpaired last node is dropped. */
  function Pairs<D>(hash: (D, D) -> D, s: seq<D>): (p: seq<D>)
    ensures |p| == |s| / 2
    ensures forall i :: 0 <= i < |p| ==> p[i] == hash(s[2 * i], s[2 * i + 1])
  {
    seq(|s| / 2, i requires 0 <= i < |s| / 2 => hash(s[2 * i], s[2 * i + 1]))
  }

  /** A level with an unpaired last node duplicates it. */
  function Padded<D>(s: seq<D>): seq<D> {
    if |s| % 2 == 1 then s + [Last(s)] else s
  }

  function Root<D>(hash: (D, D) -> D, zero: D, ids: seq<D>): D
    decreases |ids|
  {
    if ids == [] then zero
    else if |ids| == 1 then ids[0]
    else Root(hash, zero, Pairs(hash, Padded(ids)))
  }

  lemma RootUnfolds<D>(hash: (D, D) -> D, zero: D, s: seq<D>)
    requires |s| > 1
    ensures Root(hash, zero, s) == Root(hash, zero, Pairs(hash, Padded(s)))
  {
  }

  /** `merkle(ids)`: the loop overwrites the front half of the list with the parents, then
      shrinks the list. */
  method BatchRoot<D>(hash: (D, D) -> D, zero: D, input: seq<D>) returns (root: D)
    ensures root == Root(hash, zero, input)
  {
    if |input| == 0 {
      return zero;
    }
    hide Pairs;
    var ids := input;
    while |ids| > 1
      invariant ids != []
      invariant Root(hash, zero, ids) == Root(hash, zero, input)
      decreases |ids|
    {
      ghost var level := ids;
      RootUnfolds(hash, zero, level);
      if |ids| % 2 == 1 {
        ids := ids + [Last(ids)];
      }
      ghost var padded := ids;
      assert padded == Padded(level);
      ghost var parents := Pairs(hash, padded);
      var i := 0;
      while i < |ids| / 2
        invariant 0 <= i <= |ids| / 2 && |ids| == |padded|
        invariant forall j :: 0 <= j < i ==> ids[j] == parents[j]
        invariant forall j :: i <= j < |ids| ==> ids[j] == padded[j]
      {
        ids := ids[i := hash(ids[2 * i], ids[2 * i + 1])];
        i := i + 1;
      }
      ids := ids[..|ids| / 2];
      assert ids == parents;
    }
    root := ids[0];
  }

  /** Duplicating the unpaired last node of a list longer than one never changes the root. */
  lemma RootIgnoresDuplicatedTail<D>(hash: (D, D) -> D, zero: D, ids: seq<D>)
    requires |ids| > 1 && |ids| % 2 == 1
    ensures Root(hash, zero, ids + [Last(ids)]) == Root(hash, zero, ids)
  {
    hide Root, Pairs;
    RootUnfolds(hash, zero, ids);
    RootUnfolds(hash, zero, ids + [Last(ids)]);
    assert Padded(ids + [Last(ids)]) == ids + [Last(ids)] == Padded(ids);
  }

  /** Nodes both of whose children are realized never change when leaves are appended. */
  function Realized<D>(hash: (D, D) -> D, leaves: seq<D>, level: nat): seq<D> {
    if level == 0 then leaves else Pairs(hash, Realized(hash, leaves, level - 1))
  }

  lemma {:induction false} RealizedNodesAreStable<D>(hash: (D, D) -> D, leaves: seq<D>, more: seq<D>, level: nat)
    ensures Realized(hash, leaves, level) <= Realized(hash, leaves + more, level)
  {
    if level > 0 {
      RealizedNodesAreStable(hash, leaves, more, level - 1);
    }
  }

  // ----- machine words -----

  /** The number a 64-bit word stands for, read bit by bit. */
  ghost function Value(c: bv64): nat
    decreases c
  {
    if c == 0 then 0 else 2 * Value(c >> 1) + (if c & 1 == 1 then 1 else 0)
  }

  /** How many times a word must be shifted right to vanish. */
  ghost function BitLength(c: bv64): nat
    decreases c
  {
    if c == 0 then 0 else 1 + BitLength(c >> 1)
  }

  // The bit-level facts below relate words through named predicates, so that the inductive
  // proofs can use them without looking at the bits.

  ghost predicate IsOdd(c: bv64) {
    c & 1 == 1
  }

  ghost predicate IsHalf(c: bv64, half: bv64) {
    half == c >> 1
  }

  ghost predicate IsSuccessor(c: bv64, next: bv64) {
    c != 0xFFFF_FFFF_FFFF_FFFF && next == c + 1
  }

  predicate Odd(c: bv64)
    ensures Odd(c) == IsOdd(c)
  {
    c & 1 == 1
  }

  function Half(c: bv64): (half: bv64)
    ensures IsHalf(c, half)
  {
    c >> 1
  }

  function Successor(c: bv64): (next: bv64)
    requires c != 0xFFFF_FFFF_FFFF_FFFF
    ensures IsSuccessor(c, next)
  {
    c + 1
  }

  lemma ValueSplits(c: bv64, half: bv64)
    requires IsHalf(c, half)
    ensures Value(c) == 2 * Value(half) + (if IsOdd(c) then 1 else 0)
    ensures c != 0 ==> BitLength(c) == 1 + BitLength(half)
  {
  }

  lemma HalfOfOddSuccessor(c: bv64, next: bv64, half: bv64, nextHalf: bv64)
    requires IsSuccessor(c, next) && IsHalf(c, half) && IsHalf(next, nextHalf) && IsOdd(c)
    ensures nextHalf == half + 1
  {
  }

  lemma HalfIsNotMaximum(c: bv64, half: bv64)
    requires IsHalf(c, half)
    ensures half != 0xFFFF_FFFF_FFFF_FFFF
  {
  }

  lemma HalfOfOddDecreases(c: bv64, half: bv64)
    requires IsHalf(c, half) && IsOdd(c)
    ensures half < c
  {
  }

  lemma HalfDecreases(c: bv64, half: bv64)
    requires IsHalf(c, half) && c != 0
    ensures half < c
  {
  }

  lemma SuccessorFlipsParity(c: bv64, next: bv64)
    requires IsSuccessor(c, next)
    ensures IsOdd(next) <==> !IsOdd(c)
  {
  }

  lemma HalfOfEvenSuccessor(c: bv64, next: bv64, half: bv64, nextHalf: bv64)
    requires IsSuccessor(c, next) && IsHalf(c, half) && IsHalf(next, nextHalf) && !IsOdd(c)
    ensures nextHalf == half
  {
  }

  lemma SuccessorOf(c: bv64, next: bv64)
    requires c != 0xFFFF_FFFF_FFFF_FFFF && next == c + 1
    ensures IsSuccessor(c, next)
  {
  }

  /** Incrementing a word that is not all ones increments the number it stands for. */
  lemma {:induction false} ValueOfSuccessor(c: bv64, next: bv64)
    requires IsSuccessor(c, next)
    ensures Value(next) == Value(c) + 1
    decreases c
  {
    hide Value, BitLength, IsOdd, IsSuccessor, IsHalf;
    var half, nextHalf := Half(c), Half(next);
    ValueSplits(c, half);
    ValueSplits(next, nextHalf);
    SuccessorFlipsParity(c, next);
    if IsOdd(c) {
      HalfOfOddSuccessor(c, next, half, nextHalf);
      HalfIsNotMaximum(c, half);
      HalfOfOddDecreases(c, half);
      SuccessorOf(half, nextHalf);
      ValueOfSuccessor(half, nextHalf);
    } else {
      HalfOfEvenSuccessor(c, next, half, nextHalf);
    }
  }

  /** Copies the top set bit into every lower position. */
  function Smear(v0: bv64): bv64 {
    var v1 := v0 | (v0 >> 1);
    var v2 := v1 | (v1 >> 2);
    var v3 := v2 | (v2 >> 4);
    var v4 := v3 | (v3 >> 8);
    var v5 := v4 | (v4 >> 16);
    v5 | (v5 >> 32)
  }

  function NextPowerOf2(value: bv64): bv64 {
    Smear(value - 1) + 1
  }

  /** Named and documented in the source as the count of leading zeros; on a power of two it
      in fact yields the position of the single set bit. */
  function ClzPower2(value: bv64): int {
    64
    - (if value != 0 then 1 else 0)
    - (if value & 0x00000000FFFFFFFF != 0 then 32 else 0)
    - (if value & 0x0000FFFF0000FFFF != 0 then 16 else 0)
    - (if value & 0x00FF00FF00FF00FF != 0 then 8 else 0)
    - (if value & 0x0F0F0F0F0F0F0F0F != 0 then 4 else 0)
    - (if value & 0x3333333333333333 != 0 then 2 else 0)
    - (if value & 0x5555555555555555 != 0 then 1 else 0)
  }

  function MaxDepth(nodeCount: bv64): int {
    if nodeCount == 0 then 0 else ClzPower2(NextPowerOf2(nodeCount)) + 1
  }

  ghost predicate SingleBit(v: bv64) {
    v & (v - 1) == 0 && v != 0
  }

  ghost predicate IsDouble(v: bv64, twice: bv64) {
    twice == v << 1
  }

  lemma SmearOfHalf(c: bv64, half: bv64)
    requires IsHalf(c, half)
    ensures IsHalf(Smear(c), Smear(half))
  {
  }

  lemma SmearIsOdd(c: bv64)
    requires c != 0
    ensures IsOdd(Smear(c))
  {
  }

  /** One more, wrapping. */
  ghost predicate IsOneMore(v: bv64, more: bv64) {
    more == v + 1
  }

  lemma OneMoreThanHalf(v: bv64, half: bv64, vMore: bv64, halfMore: bv64)
    requires IsOdd(v) && IsHalf(v, half) && IsOneMore(v, vMore) && IsOneMore(half, halfMore)
    ensures IsDouble(halfMore, vMore)
  {
  }

  lemma NextPowerOfSuccessor(c: bv64, next: bv64)
    requires IsSuccessor(c, next)
    ensures IsOneMore(Smear(c), NextPowerOf2(next))
  {
    hide Smear;
    assert next - 1 == c;
  }

  lemma NextPowerDoubles(c: bv64, next: bv64, half: bv64, nextHalf: bv64)
    requires IsSuccessor(c, next) && IsHalf(c, half) && IsSuccessor(half, nextHalf) && c != 0
    ensures IsDouble(NextPowerOf2(nextHalf), NextPowerOf2(next))
  {
    hide Smear, NextPowerOf2, IsSuccessor, IsHalf, IsDouble, IsOdd, IsOneMore;
    NextPowerOfSuccessor(c, next);
    NextPowerOfSuccessor(half, nextHalf);
    SmearOfHalf(c, half);
    SmearIsOdd(c);
    OneMoreThanHalf(Smear(c), Smear(half), NextPowerOf2(next), NextPowerOf2(nextHalf));
  }

  lemma SmearOfHalfRoundsUp(c: bv64, half: bv64, more: bv64)
    requires IsHalf(c, half) && IsOneMore(Smear(half), more)
    ensures SingleBit(more)
  {
  }

  lemma ClzOfDouble(v: bv64, twice: bv64)
    requires SingleBit(v) && IsDouble(v, twice)
    ensures ClzPower2(twice) == ClzPower2(v) + 1
  {
  }

  lemma SuccessorIsNonzero(c: bv64, next: bv64)
    requires IsSuccessor(c, next)
    ensures next != 0
  {
  }

  lemma DepthOfHalf(c: bv64, next: bv64, half: bv64, nextHalf: bv64)
    requires IsSuccessor(c, next) && IsHalf(c, half) && IsSuccessor(half, nextHalf) && c != 0
    ensures MaxDepth(next) == MaxDepth(nextHalf) + 1
  {
    hide Smear, NextPowerOf2, ClzPower2, IsSuccessor, IsHalf, IsDouble, SingleBit, IsOneMore;
    NextPowerDoubles(c, next, half, nextHalf);
    NextPowerOfSuccessor(half, nextHalf);
    SmearOfHalfRoundsUp(c, half, NextPowerOf2(nextHalf));
    ClzOfDouble(NextPowerOf2(nextHalf), NextPowerOf2(next));
    SuccessorIsNonzero(c, next);
    SuccessorIsNonzero(half, nextHalf);
  }

  /** The depth needed for one more than `c` nodes is one more than the bit length of `c`, for
      every 64-bit `c` whose successor does not wrap; in particular where the rounded-up
      power of two wraps to zero. */
  lemma {:induction false} DepthOfSuccessor(c: bv64, next: bv64)
    requires IsSuccessor(c, next)
    ensures MaxDepth(next) == BitLength(c) + 1
    decreases c
  {
    hide MaxDepth, BitLength, Value, IsSuccessor, IsHalf, Half, Successor;
    if c == 0 {
      DepthOfOne(next);
    } else {
      var half := Half(c);
      HalfDecreases(c, half);
      HalfIsNotMaximum(c, half);
      var nextHalf := Successor(half);
      ValueSplits(c, half);
      DepthOfHalf(c, next, half, nextHalf);
      DepthOfSuccessor(half, nextHalf);
    }
  }

  lemma DepthOfOne(one: bv64)
    requires IsSuccessor(0, one)
    ensures MaxDepth(one) == 1 && BitLength(0) == 0
  {
  }

  // ----- the incremental form -----

  /** The realized left siblings the next append will need: at every level the unpaired last
      node, lowest level first. */
  ghost function Lefts<D>(hash: (D, D) -> D, s: seq<D>): seq<D>
    decreases |s|
  {
    if s == [] then []
    else (if |s| % 2 == 1 then [Last(s)] else []) + Lefts(hash, Pairs(hash, s))
  }

  lemma PairsOfEvenAndTwo<D>(hash: (D, D) -> D, s: seq<D>, a: D, b: D)
    requires |s| % 2 == 0
    ensures Pairs(hash, s + [a, b]) == Pairs(hash, s) + [hash(a, b)]
    ensures Pairs(hash, s + [a]) == Pairs(hash, s)
  {
  }

  lemma PairsOfOddAndOne<D>(hash: (D, D) -> D, s: seq<D>, a: D)
    requires |s| % 2 == 1
    ensures Pairs(hash, s + [a]) == Pairs(hash, s) + [hash(Last(s), a)]
  {
  }

  lemma LeftsUnfold<D>(hash: (D, D) -> D, s: seq<D>)
    requires s != []
    ensures Lefts(hash, s) == (if |s| % 2 == 1 then [Last(s)] else []) + Lefts(hash, Pairs(hash, s))
  {
  }

  /** A new node with an even index becomes a left child whose right sibling is implied. */
  lemma CollapseLeft<D>(hash: (D, D) -> D, zero: D, level: seq<D>, top: D)
    requires level != [] && |level| % 2 == 0
    ensures Root(hash, zero, level + [top]) == Root(hash, zero, Pairs(hash, level) + [hash(top, top)])
    ensures Lefts(hash, level + [top]) == [top] + Lefts(hash, Pairs(hash, level))
    ensures Lefts(hash, level) == Lefts(hash, Pairs(hash, level))
  {
    hide Root, Lefts, Pairs;
    RootUnfolds(hash, zero, level + [top]);
    LeftsUnfold(hash, level + [top]);
    LeftsUnfold(hash, level);
    PairsOfEvenAndTwo(hash, level, top, top);
    assert level + [top, top] == Padded(level + [top]);
  }

  /** A new node with an odd index is paired with the realized last node of its level. */
  lemma CollapseRight<D>(hash: (D, D) -> D, zero: D, level: seq<D>, top: D)
    requires |level| % 2 == 1
    ensures Root(hash, zero, level + [top]) == Root(hash, zero, Pairs(hash, level) + [hash(Last(level), top)])
    ensures Lefts(hash, level + [top]) == Lefts(hash, Pairs(hash, level) + [hash(Last(level), top)])
    ensures Lefts(hash, level) == [Last(level)] + Lefts(hash, Pairs(hash, level))
  {
    hide Root, Lefts, Pairs;
    RootUnfolds(hash, zero, level + [top]);
    LeftsUnfold(hash, level + [top]);
    LeftsUnfold(hash, level);
    PairsOfOddAndOne(hash, level, top);
  }

  lemma {:induction false} ShiftHalves(c: bv64, half: bv64)
    requires IsHalf(c, half)
    ensures c == 0 <==> BitLength(c) == 0
    ensures c == 0 <==> Value(c) == 0
    ensures c != 0 ==> Value(half) == Value(c) / 2 && BitLength(half) == BitLength(c) - 1
    ensures IsOdd(c) <==> Value(c) % 2 == 1
    decreases c
  {
    hide IsHalf, IsOdd, Half, Value, BitLength;
    ZeroWord();
    ValueSplits(c, half);
    if half == 0 {
      OnlyOneHalvesToZero(c, half);
    } else {
      NonzeroHalf(c, half);
      ShiftHalves(half, Half(half));
    }
  }

  lemma ZeroWord()
    ensures Value(0) == 0 && BitLength(0) == 0
  {
  }

  lemma OnlyOneHalvesToZero(c: bv64, half: bv64)
    requires IsHalf(c, half) && half == 0
    ensures c != 0 <==> IsOdd(c)
  {
  }

  lemma NonzeroHalf(c: bv64, half: bv64)
    requires IsHalf(c, half) && half != 0
    ensures half < c
  {
  }

  lemma SingleNode<D>(hash: (D, D) -> D, zero: D, top: D)
    ensures Root(hash, zero, [top]) == top && Lefts(hash, [top]) == [top]
    ensures Lefts(hash, []) == []
  {
  }

  /** What holds on the way up the tree: `level` holds the realized nodes of the level reached
      before the append, `top` is the new node of that level, `left` are the active nodes not
      read yet and `updated` the active nodes collected so far. `partial` tells that `top` is
      built on implied nodes. */
  ghost predicate Climbing<D>(hash: (D, D) -> D, zero: D, all: seq<D>, level: seq<D>, top: D,
                              partial: bool, updated: seq<D>, left: seq<D>)
  {
    && Lefts(hash, level) <= left
    && Root(hash, zero, level + [top]) == Root(hash, zero, all)
    && (!partial ==> updated == [] && Lefts(hash, level + [top]) == Lefts(hash, all))
    && (partial ==> updated + Lefts(hash, level) == Lefts(hash, all))
  }

  lemma StartClimbing<D>(hash: (D, D) -> D, zero: D, leaves: seq<D>, digest: D, active: seq<D>)
    requires Lefts(hash, leaves) <= active
    ensures Climbing(hash, zero, leaves + [digest], leaves, digest, false, [], active)
  {
    hide Root, Lefts;
  }

  lemma ClimbAsLeft<D>(hash: (D, D) -> D, zero: D, all: seq<D>, level: seq<D>, top: D,
                       partial: bool, updated: seq<D>, left: seq<D>)
    requires Climbing(hash, zero, all, level, top, partial, updated, left)
    requires level != [] && |level| % 2 == 0
    ensures Climbing(hash, zero, all, Pairs(hash, level), hash(top, top), true,
                     if partial then updated else updated + [top], left)
  {
    hide Root, Lefts, Pairs;
    CollapseLeft(hash, zero, level, top);
  }

  lemma ClimbAsRight<D>(hash: (D, D) -> D, zero: D, all: seq<D>, level: seq<D>, top: D,
                        partial: bool, updated: seq<D>, left: seq<D>)
    requires Climbing(hash, zero, all, level, top, partial, updated, left)
    requires |level| % 2 == 1
    ensures left != [] && left[0] == Last(level)
    ensures Climbing(hash, zero, all, Pairs(hash, level), hash(left[0], top), partial,
                     if partial then updated + [left[0]] else updated, left[1..])
  {
    hide Root, Lefts, Pairs;
    CollapseRight(hash, zero, level, top);
    assert ([Last(level)] + Lefts(hash, Pairs(hash, level)))[1..] == Lefts(hash, Pairs(hash, level));
    assert updated + [Last(level)] + Lefts(hash, Pairs(hash, level))
        == updated + ([Last(level)] + Lefts(hash, Pairs(hash, level)));
  }

  lemma ClimbedToRoot<D>(hash: (D, D) -> D, zero: D, all: seq<D>, top: D,
                         partial: bool, updated: seq<D>, left: seq<D>)
    requires Climbing(hash, zero, all, [], top, partial, updated, left)
    ensures top == Root(hash, zero, all) && IsActive(hash, zero, all, updated + [top])
  {
    hide Root, Lefts;
    assert [] + [top] == [top];
    SingleNode(hash, zero, top);
    if partial {
      assert updated + [] == updated;
    }
  }

  /** The nodes to be kept: those needed later, and at the end the root, which may be one of them. */
  ghost predicate IsActive<D>(hash: (D, D) -> D, zero: D, leaves: seq<D>, active: seq<D>) {
    active == Lefts(hash, leaves) + [Root(hash, zero, leaves)] || (active == Lefts(hash, leaves) && Ends(active, Root(hash, zero, leaves)))
  }

  ghost predicate Ends<D>(active: seq<D>, root: D) {
    active != [] && Last(active) == root
  }

  lemma {:induction false} FewLefts<D>(hash: (D, D) -> D, s: seq<D>, c: bv64)
    requires Value(c) == |s|
    ensures |Lefts(hash, s)| <= BitLength(c)
    decreases c
  {
    hide Value, BitLength, Pairs;
    ShiftHalves(c, Half(c));
    if s != [] {
      HalfDecreases(c, Half(c));
      FewLefts(hash, Pairs(hash, s), Half(c));
    }
  }

  class IncrementalMerkle<D> {
    const hash: (D, D) -> D
    const zero: D
    var nodeCount: bv64
    var activeNodes: seq<D>
    /** Every digest appended so far. */
    ghost var leaves: seq<D>

    ghost predicate Valid()
      reads this
    {
      && Value(nodeCount) == |leaves|
      && (if leaves == [] then activeNodes == [] else IsActive(hash, zero, leaves, activeNodes))
    }

    constructor (hash: (D, D) -> D, zero: D)
      ensures Valid() && leaves == [] && this.hash == hash && this.zero == zero
    {
      this.hash, this.zero := hash, zero;
      nodeCount, activeNodes, leaves := 0, [], [];
    }

    /** Appends a digest; the result and the stored root are the batch root of all digests. */
    method Append(digest: D) returns (root: D)
      requires Valid() && nodeCount != 0xFFFF_FFFF_FFFF_FFFF
      modifies this
      ensures Valid()
      ensures leaves == old(leaves) + [digest]
      ensures nodeCount == old(nodeCount) + 1
      ensures root == Root(hash, zero, leaves)
      ensures |activeNodes| <= BitLength(nodeCount) + 1
    {
      hide Root, Lefts, Pairs, Value, BitLength, MaxDepth, IsOdd, IsSuccessor, IsHalf, Climbing;
      var partial := false;
      var maxDepth := MaxDepth(Successor(nodeCount));
      var currentDepth := maxDepth - 1;
      var index := nodeCount;
      var top := digest;
      var active := 0;
      var updated: seq<D> := [];

      ghost var level := leaves;
      ghost var all := leaves + [digest];
      DepthOfSuccessor(nodeCount, Successor(nodeCount));
      SingleNode(hash, zero, digest);
      StartClimbing(hash, zero, leaves, digest, activeNodes);
      assert activeNodes[0..] == activeNodes;
      while currentDepth > 0
        invariant currentDepth == BitLength(index)
        invariant Value(index) == |level|
        invariant 0 <= active <= |activeNodes|
        invariant Climbing(hash, zero, all, level, top, partial, updated, activeNodes[active..])
        invariant leaves == old(leaves) && nodeCount == old(nodeCount) && activeNodes == old(activeNodes)
      {
        ShiftHalves(index, Half(index));
        if !Odd(index) {
          ClimbAsLeft(hash, zero, all, level, top, partial, updated, activeNodes[active..]);
          if !partial {
            updated := updated + [top];
          }
          top := hash(top, top);
          partial := true;
        } else {
          ClimbAsRight(hash, zero, all, level, top, partial, updated, activeNodes[active..]);
          var left := activeNodes[active];
          assert activeNodes[active..][1..] == activeNodes[active + 1..];
          active := active + 1;
          if partial {
            updated := updated + [left];
          }
          top := hash(left, top);
        }
        level := Pairs(hash, level);
        currentDepth := currentDepth - 1;
        index := Half(index);
      }
      ShiftHalves(index, Half(index));
      ClimbedToRoot(hash, zero, all, top, partial, updated, activeNodes[active..]);
      updated := updated + [top];
      ValueOfSuccessor(nodeCount, Successor(nodeCount));
      activeNodes := updated;
      nodeCount := Successor(nodeCount);
      leaves := all;
      FewLefts(hash, all, nodeCount);
      root := Last(activeNodes);
    }

    method GetRoot() returns (root: D)
      requires Valid()
      ensures root == Root(hash, zero, leaves)
    {
      ShiftHalves(nodeCount, Half(nodeCount));
      if nodeCount > 0 {
        root := Last(activeNodes);
      } else {
        root := zero;
      }
    }
  }

  /** Appending a list digest by digest to an empty incremental tree yields the batch root. */
  method IncrementalRoot<D>(hash: (D, D) -> D, zero: D, ids: seq<D>) returns (root: D)
    requires |ids| < 0x1_0000_0000_0000_0000
    ensures root == Root(hash, zero, ids)
  {
    hide Root, Lefts, Value;
    var tree := new IncrementalMerkle(hash, zero);
    for i := 0 to |ids|
      invariant tree.Valid() && tree.leaves == ids[..i] && tree.hash == hash && tree.zero == zero
      invariant fresh(tree)
    {
      ValueOfMaximum();
      var _ := tree.Append(ids[i]);
    }
    root := tree.GetRoot();
    assert ids[..|ids|] == ids;
  }


  lemma ValueOfLowOnes(c: bv64, c1: bv64, c2: bv64, c3: bv64, c4: bv64)
    requires IsHalf(c, c1) && IsHalf(c1, c2) && IsHalf(c2, c3) && IsHalf(c3, c4)
    requires IsOdd(c) && IsOdd(c1) && IsOdd(c2) && IsOdd(c3)
    ensures Value(c) == 16 * Value(c4) + 15
  {
    hide Value, IsHalf, IsOdd;
    ValueSplits(c, c1);
    ValueSplits(c1, c2);
    ValueSplits(c2, c3);
    ValueSplits(c3, c4);
  }

  lemma ShiftOutOnes(c: bv64, c4: bv64)
    requires c & 0xF == 0xF && c4 == c >> 4
    ensures Value(c) == 16 * Value(c4) + 15
  {
    hide Value;
    var c1, c2, c3 := c >> 1, c >> 2, c >> 3;
    ValueOfLowOnes(c, c1, c2, c3, c4);
  }

  /** The all-ones word stands for the largest 64-bit number. */
  lemma ValueOfMaximum()
    ensures Value(0xFFFF_FFFF_FFFF_FFFF) == 0xFFFF_FFFF_FFFF_FFFF
  {
    ShiftOutOnes(0xF, 0x0);
    ShiftOutOnes(0xFF, 0xF);
    ShiftOutOnes(0xFFF, 0xFF);
    ShiftOutOnes(0xFFFF, 0xFFF);
    ShiftOutOnes(0xF_FFFF, 0xFFFF);
    ShiftOutOnes(0xFF_FFFF, 0xFFFFF);
    ShiftOutOnes(0xFFF_FFFF, 0xFFFFFF);
    ShiftOutOnes(0xFFFF_FFFF, 0xFFFFFFF);
    ShiftOutOnes(0xF_FFFF_FFFF, 0xFFFFFFFF);
    ShiftOutOnes(0xFF_FFFF_FFFF, 0xFFFFFFFFF);
    ShiftOutOnes(0xFFF_FFFF_FFFF, 0xFFFFFFFFFF);
    ShiftOutOnes(0xFFFF_FFFF_FFFF, 0xFFFFFFFFFFF);
    ShiftOutOnes(0xF_FFFF_FFFF_FFFF, 0xFFFFFFFFFFFF);
    ShiftOutOnes(0xFF_FFFF_FFFF_FFFF, 0xFFFFFFFFFFFFF);
    ShiftOutOnes(0xFFF_FFFF_FFFF_FFFF, 0xFFFFFFFFFFFFFF);
    ShiftOutOnes(0xFFFF_FFFF_FFFF_FFFF, 0xFFFFFFFFFFFFFFF);
  }
}
