/** The header state of a block: which producer may sign when, which blocks the producers
    confirmed, and which block that makes irreversible. Block ids, Merkle roots, keys and
    signatures are not part of the state modelled here; block numbers are unbounded, but the
    subtraction in the check for double confirmations is done in 32 bits as in the source. */
module Dpos {
  import opened Options

  type Name = nat

  const REPETITIONS: nat := 12
  const MAX_TRACKED: nat := 1024

  type UInt16 = n: nat | n < 0x1_0000

  type Byte = n: nat | n < 0x100

  datatype Schedule = Schedule(version: nat, producers: seq<Name>)

  datatype Header = Header(slot: nat, producer: Name, version: nat, confirmed: UInt16, newProducers: Option<Schedule>)

  datatype State = State(
    blockNum: nat,
    slot: nat,
    producer: Name,
    proposed: nat,
    irreversible: nat,
    pendingLib: nat,
    pending: Schedule,
    active: Schedule,
    lastProduced: map<Name, nat>,
    implied: map<Name, nat>,
    counts: seq<Byte>)

  function UInt32(x: int): nat {
    x % 0x1_0000_0000
  }

  function UInt8(x: int): Byte {
    x % 0x100
  }

  // ----- the last irreversible block -----

  function Backers(m: map<Name, nat>, b: nat): set<Name> {
    set p | p in m && m[p] >= b
  }

  /** More than two thirds of the producers imply that block `b` is irreversible. */
  predicate Backed(m: map<Name, nat>, b: nat) {
    3 * |Backers(m, b)| > 2 * |m|
  }

  ghost function Top(m: map<Name, nat>): (b: nat)
    ensures forall p :: p in m ==> m[p] <= b
  {
    if m == map[] then 0
    else
      var p :| p in m;
      var rest := Top(m - {p});
      assert forall q :: q in m && q != p ==> q in m - {p} && (m - {p})[q] == m[q];
      if m[p] > rest then m[p] else rest
  }

  ghost function Search(m: map<Name, nat>, b: nat): nat {
    if b == 0 || Backed(m, b) then b else Search(m, b - 1)
  }

  /** The largest block number backed by more than two thirds of the producers. */
  ghost function LastIrreversible(m: map<Name, nat>): nat {
    if m == map[] then 0 else Search(m, Top(m))
  }

  lemma BackersShrink(m: map<Name, nat>, b: nat, c: nat)
    requires b <= c && Backed(m, c)
    ensures Backed(m, b)
  {
    assert Backers(m, c) <= Backers(m, b);
    Within(Backers(m, c), Backers(m, b));
  }

  lemma {:induction false} Within(s: set<Name>, t: set<Name>)
    requires s <= t
    ensures |s| <= |t|
  {
    if s != {} {
      var x :| x in s;
      Within(s - {x}, t - {x});
    }
  }

  lemma {:induction false} SearchFinds(m: map<Name, nat>, top: nat, b: nat)
    requires m != map[] && !Backed(m, top + 1)
    ensures b <= Search(m, top) <==> Backed(m, b)
  {
    if Backed(m, b) && b > top {
      BackersShrink(m, top + 1, b);
    }
    if top == 0 || Backed(m, top) {
      if b == 0 {
        assert Backers(m, 0) == m.Keys;
      } else if b <= top {
        BackersShrink(m, b, top);
      }
    } else {
      SearchFinds(m, top - 1, b);
    }
  }

  /** A block is at or below the last irreversible one exactly when more than two thirds of the
      producers back it. */
  lemma LastIrreversibleIffBacked(m: map<Name, nat>, b: nat)
    requires m != map[]
    ensures b <= LastIrreversible(m) <==> Backed(m, b)
  {
    assert Backers(m, Top(m) + 1) == {};
    SearchFinds(m, Top(m), b);
  }

  lemma LastIrreversibleIs(m: map<Name, nat>, b: nat)
    requires m != map[] && Backed(m, b) && !Backed(m, b + 1)
    ensures LastIrreversible(m) == b
  {
    LastIrreversibleIffBacked(m, b);
    LastIrreversibleIffBacked(m, b + 1);
  }

  /** Values that do not fall do not lower the result. */
  lemma LastIrreversibleRises(m: map<Name, nat>, m': map<Name, nat>)
    requires m.Keys == m'.Keys && forall p :: p in m ==> m[p] <= m'[p]
    ensures LastIrreversible(m) <= LastIrreversible(m')
  {
    if m == map[] {
      assert m' == map[];
    } else {
      var b := LastIrreversible(m);
      LastIrreversibleIffBacked(m, b);
      Within(Backers(m, b), Backers(m', b));
      SameSize(m, m');
      LastIrreversibleIffBacked(m', b);
    }
  }

  lemma SameSize(m: map<Name, nat>, m': map<Name, nat>)
    requires m.Keys == m'.Keys
    ensures |m| == |m'|
  {
    assert |m| == |m.Keys| && |m'| == |m'.Keys|;
  }

  // ----- the order statistic -----

  predicate Ascending(v: seq<nat>) {
    forall i, j :: 0 <= i < j < |v| ==> v[i] <= v[j]
  }

  /** How many values are at least `b`. */
  function AtLeast(v: seq<nat>, b: nat): nat {
    if v == [] then 0 else AtLeast(v[1..], b) + (if v[0] >= b then 1 else 0)
  }

  function Insert(v: seq<nat>, x: nat): seq<nat> {
    if v == [] || x <= v[0] then [x] + v else [v[0]] + Insert(v[1..], x)
  }

  function Sort(v: seq<nat>): seq<nat> {
    if v == [] then [] else Insert(Sort(v[1..]), v[0])
  }

  lemma {:induction false} InsertKeeps(v: seq<nat>, x: nat, b: nat)
    requires Ascending(v)
    ensures var w := Insert(v, x);
            && |w| == |v| + 1 && Ascending(w)
            && AtLeast(w, b) == AtLeast(v, b) + (if x >= b then 1 else 0)
            && (forall y :: y in w ==> y == x || y in v)
  {
    if v == [] || x <= v[0] {
      assert ([x] + v)[1..] == v;
    } else {
      InsertKeeps(v[1..], x, b);
      assert ([v[0]] + Insert(v[1..], x))[1..] == Insert(v[1..], x);
    }
  }

  lemma {:induction false} SortSorts(v: seq<nat>, b: nat)
    ensures |Sort(v)| == |v| && Ascending(Sort(v)) && AtLeast(Sort(v), b) == AtLeast(v, b)
  {
    if v != [] {
      SortSorts(v[1..], b);
      InsertKeeps(Sort(v[1..]), v[0], b);
    }
  }

  /** In an ascending sequence the values from index `k` on are at least `v[k]`, and no more
      than those after `k` exceed it. */
  lemma {:induction false} AscendingCounts(v: seq<nat>, k: nat)
    requires Ascending(v) && k < |v|
    ensures AtLeast(v, v[k]) >= |v| - k && AtLeast(v, v[k] + 1) <= |v| - k - 1
  {
    if k == 0 {
      AllAtLeast(v, v[0]);
      NotMoreThan(v[1..], v[0] + 1);
    } else {
      AscendingCounts(v[1..], k - 1);
    }
  }

  lemma {:induction false} AllAtLeast(v: seq<nat>, b: nat)
    requires forall i :: 0 <= i < |v| ==> v[i] >= b
    ensures AtLeast(v, b) == |v|
  {
    if v != [] {
      AllAtLeast(v[1..], b);
    }
  }

  lemma {:induction false} NotMoreThan(v: seq<nat>, b: nat)
    ensures AtLeast(v, b) <= |v|
  {
    if v != [] {
      NotMoreThan(v[1..], b);
    }
  }

  lemma {:induction false} AtLeastAppend(v: seq<nat>, x: nat, b: nat)
    ensures AtLeast(v + [x], b) == AtLeast(v, b) + (if x >= b then 1 else 0)
  {
    if v != [] {
      AtLeastAppend(v[1..], x, b);
      assert (v + [x])[1..] == v[1..] + [x];
    }
  }

  /** The values of the producers in `done` are those in `v`. */
  ghost predicate Lists(v: seq<nat>, m: map<Name, nat>, done: set<Name>) {
    && done <= m.Keys && |v| == |done|
    && forall b :: AtLeast(v, b) == |Backers(m, b) * done|
  }

  lemma ListsOneMore(v: seq<nat>, m: map<Name, nat>, done: set<Name>, p: Name)
    requires Lists(v, m, done) && p in m && p !in done
    ensures Lists(v + [m[p]], m, done + {p})
  {
    forall b ensures AtLeast(v + [m[p]], b) == |Backers(m, b) * (done + {p})| {
      AtLeastAppend(v, m[p], b);
      assert AtLeast(v, b) == |Backers(m, b) * done|;
      if m[p] >= b {
        assert Backers(m, b) * (done + {p}) == Backers(m, b) * done + {p};
      } else {
        assert Backers(m, b) * (done + {p}) == Backers(m, b) * done;
      }
    }
  }

  lemma ThirdFromBelow(v: seq<nat>, m: map<Name, nat>)
    requires Lists(v, m, m.Keys) && v != []
    ensures var w := Sort(v); |w| == |v| && w[(|w| - 1) / 3] == LastIrreversible(m)
  {
    hide Ascending, Sort, LastIrreversible, Backers, AtLeast;
    var w := Sort(v);
    SortSorts(v, 0);
    var k := (|w| - 1) / 3;
    AscendingCounts(w, k);
    SortSorts(v, w[k]);
    SortSorts(v, w[k] + 1);
    BackersAreKnown(m, w[k]);
    BackersAreKnown(m, w[k] + 1);
    LastIrreversibleIs(m, w[k]);
  }

  lemma NothingListed(m: map<Name, nat>)
    ensures Lists([], m, {})
  {
  }

  lemma NoneToList(m: map<Name, nat>)
    requires Lists([], m, m.Keys)
    ensures LastIrreversible(m) == 0
  {
  }

  lemma BackersAreKnown(m: map<Name, nat>, b: nat)
    ensures Backers(m, b) * m.Keys == Backers(m, b) && |m| == |m.Keys|
  {
  }

  /** `calc_dpos_last_irreversible`: one third into the sorted list. */
  method CalcLastIrreversible(m: map<Name, nat>) returns (b: nat)
    ensures b == LastIrreversible(m)
  {
    hide Lists, LastIrreversible, Sort;
    var v: seq<nat> := [];
    var todo := m.Keys;
    NothingListed(m);
    ghost var done: set<Name> := {};
    while todo != {}
      invariant done == m.Keys - todo && todo <= m.Keys
      invariant Lists(v, m, done)
    {
      var p :| p in todo;
      ListsOneMore(v, m, done, p);
      v := v + [m[p]];
      todo := todo - {p};
      done := done + {p};
    }
    assert done == m.Keys;
    if |v| == 0 {
      NoneToList(m);
      return 0;
    }
    ThirdFromBelow(v, m);
    var w := Sort(v);
    b := w[(|w| - 1) / 3];
  }

  // ----- one block -----

  /** The producer whose turn a slot is. */
  function Scheduled(producers: seq<Name>, slot: nat): Name
    requires producers != []
  {
    var index := slot % (|producers| * REPETITIONS) / REPETITIONS;
    assert index < |producers|;
    producers[index]
  }

  function Required(n: nat): Byte {
    UInt8(n * 2 / 3 + 1)
  }

  function Grown(counts: seq<Byte>, c: Byte): (r: seq<Byte>)
    ensures |r| <= |counts| + 1
  {
    if |counts| < MAX_TRACKED then counts + [c] else counts[1..] + [c]
  }

  /** The header state before anything of the new block but its time is known. */
  ghost function Generated(s: State, slot: nat): State
    requires s.active.producers != []
  {
    var p := Scheduled(s.active.producers, slot);
    var implied := s.implied[p := s.proposed];
    s.(blockNum := s.blockNum + 1, slot := slot, producer := p,
       lastProduced := s.lastProduced[p := s.blockNum + 1],
       implied := implied, irreversible := LastIrreversible(implied),
       counts := Grown(s.counts, Required(|s.active.producers|)))
  }

  function OneLess(c: Byte): Byte {
    if c == 0 then 0xFF else c - 1
  }

  /** The last `n` counts, each one lower. */
  function Lowered(counts: seq<Byte>, n: nat): (r: seq<Byte>)
    ensures |r| == |counts|
  {
    seq(|counts|, k requires 0 <= k < |counts| => if k >= |counts| - n then OneLess(counts[k]) else counts[k])
  }

  /** The latest of the last `n` blocks that lacks one confirmation, or -1. */
  function LastOne(counts: seq<Byte>, n: nat): (z: int)
    ensures -1 <= z < |counts|
    ensures z >= 0 ==> z >= |counts| - n && counts[z] == 1
    ensures forall k :: z < k < |counts| && k >= |counts| - n ==> counts[k] != 1
  {
    if counts == [] || n == 0 then -1
    else if counts[|counts| - 1] == 1 then |counts| - 1
    else LastOne(counts[..|counts| - 1], n - 1)
  }

  /** The new block confirms itself and `prev` blocks before it. */
  function Confirm(s: State, prev: nat): State
    requires |s.counts| <= s.blockNum
  {
    var z := LastOne(s.counts, prev + 1);
    var lowered := Lowered(s.counts, prev + 1);
    if z < 0 then s.(counts := lowered)
    else s.(counts := lowered[z + 1..], proposed := s.blockNum - (|s.counts| - 1 - z))
  }

  predicate MayPromote(s: State) {
    s.pending.producers != [] && s.irreversible >= s.pendingLib
  }

  /** The entries for the given producers; those without one get the default. */
  function Carried(m: map<Name, nat>, producers: seq<Name>, default: nat): map<Name, nat> {
    map p | p in producers :: if p in m then m[p] else default
  }

  function Promoted(s: State): State {
    s.(active := s.pending, pending := s.pending.(producers := []),
       lastProduced := Carried(s.lastProduced, s.pending.producers, s.irreversible)[s.producer := s.blockNum],
       implied := Carried(s.implied, s.pending.producers, s.irreversible))
  }

  predicate MayPropose(s: State, next: Schedule) {
    next.version == s.active.version + 1 && s.pending.producers == []
  }

  function Proposing(s: State, next: Schedule): State {
    s.(pending := next, pendingLib := s.blockNum)
  }

  predicate Formed(s: State) {
    s.active.producers != [] && |s.counts| <= s.blockNum
  }

  /** The producer has no block in the range it confirms, as far as the state knows. */
  predicate RangeIsNew(s: State, h: Header) {
    h.producer in s.lastProduced ==> s.lastProduced[h.producer] < UInt32(s.blockNum + 1 - h.confirmed)
  }

  /** `next`: the state after a block with header `h`. */
  ghost function Next(s: State, h: Header): (r: Option<State>)
    requires Formed(s)
    ensures r.Some? ==> Formed(r.value)
  {
    if h.slot <= s.slot || h.version != s.active.version then None
    else if Scheduled(s.active.producers, h.slot) != h.producer || !RangeIsNew(s, h) then None
    else
      var c := Confirm(Generated(s, h.slot), h.confirmed);
      if MayPromote(c) then
        if h.newProducers.Some? then None else Some(Promoted(c))
      else if h.newProducers.None? then Some(c)
      else if MayPropose(c, h.newProducers.value) then Some(Proposing(c, h.newProducers.value))
      else None
  }

  // ----- who confirmed what -----

  /** A block of the chain after the first one: its producer, how many blocks before it it
      confirms, and how many producers were active. */
  datatype Block = Block(producer: Name, confirmed: nat, size: nat)

  /** The number of the block at index `k` of a history; the first block has number 1. */
  function Number(k: nat): nat {
    k + 2
  }

  ghost predicate Covers(h: seq<Block>, k: nat, num: nat) {
    k < |h| && Number(k) - h[k].confirmed <= num <= Number(k)
  }

  /** The producers that confirmed block `num`. */
  ghost function Confirmers(h: seq<Block>, num: nat): set<Name> {
    set k: nat | k < |h| && Covers(h, k, num) :: h[k].producer
  }

  ghost function Missing(h: seq<Block>, num: nat): int
    requires 2 <= num < |h| + 2
  {
    h[num - 2].size * 2 / 3 + 1 - |Confirmers(h, num)|
  }

  /** More than two thirds as many different producers confirmed the block as were active. */
  ghost predicate Settled(h: seq<Block>, num: nat) {
    num == 0 || (2 <= num < |h| + 2 && 3 * |Confirmers(h, num)| > 2 * h[num - 2].size)
  }

  lemma ConfirmersGrow(h: seq<Block>, b: Block, num: nat)
    ensures Confirmers(h + [b], num) ==
              Confirmers(h, num) + (if Number(|h|) - b.confirmed <= num <= Number(|h|) then {b.producer} else {})
  {
    var h' := h + [b];
    forall p ensures p in Confirmers(h, num) ==> p in Confirmers(h', num) {
      if p in Confirmers(h, num) {
        var k: nat :| k < |h| && Covers(h, k, num) && h[k].producer == p;
        assert Covers(h', k, num) && h'[k].producer == p;
      }
    }
    if Number(|h|) - b.confirmed <= num <= Number(|h|) {
      assert Covers(h', |h|, num) && h'[|h|].producer == b.producer;
    }
    forall p | p in Confirmers(h', num)
      ensures p in Confirmers(h, num) || (Covers(h', |h|, num) && p == b.producer)
    {
      var k: nat :| k < |h'| && Covers(h', k, num) && h'[k].producer == p;
      if k < |h| {
        assert Covers(h, k, num);
      }
    }
  }

  lemma SettledStays(h: seq<Block>, b: Block, num: nat)
    requires Settled(h, num)
    ensures Settled(h + [b], num)
  {
    ConfirmersGrow(h, b, num);
    Within(Confirmers(h, num), Confirmers(h + [b], num));
  }

  // ----- what every block keeps -----

  /** The number of the block whose count is at index `i`. */
  ghost function Tracked(s: State, i: nat): int {
    s.blockNum - |s.counts| + 1 + i
  }

  /** Every count is the number of confirmations still missing. */
  ghost predicate Counted(s: State, h: seq<Block>) {
    && |s.counts| <= |h| && s.blockNum == |h| + 1
    && forall i :: 0 <= i < |s.counts| ==> 1 <= s.counts[i] <= 0xFF && s.counts[i] == Missing(h, Tracked(s, i))
  }

  /** The state knows the last block of every producer that may still produce. */
  ghost predicate Remembered(s: State, h: seq<Block>) {
    forall k: nat :: k < |h| ==> RemembersBlock(s, h[k].producer, Number(k))
  }

  ghost predicate RemembersBlock(s: State, p: Name, num: nat) {
    && num <= s.blockNum
    && (p in s.lastProduced ==> s.lastProduced[p] >= num)
    && (p in s.active.producers ==> p in s.lastProduced)
    && (p in s.pending.producers && p !in s.lastProduced ==> num <= s.pendingLib)
  }

  /** Eight bits hold the confirmations a schedule needs. */
  predicate Fits(producers: seq<Name>) {
    |producers| * 2 / 3 + 1 <= 0xFF
  }

  ghost predicate AllSettled(s: State, h: seq<Block>) {
    && Settled(h, s.proposed) && Settled(h, s.irreversible)
    && (forall p :: p in s.implied ==> Settled(h, s.implied[p]) && s.implied[p] <= s.proposed)
    && s.irreversible <= s.proposed <= s.blockNum - |s.counts|
  }

  ghost predicate Inv(s: State, h: seq<Block>) {
    Formed(s) && Counted(s, h) && Remembered(s, h) && AllSettled(s, h) && Fits(s.active.producers) && Fits(s.pending.producers)
  }

  /** The range of the new block does not reach below block 0, where the subtraction of the check
      would wrap around, or its producer has no block yet. */
  ghost predicate Fresh(s: State, h: seq<Block>, hd: Header) {
    hd.confirmed <= s.blockNum + 1 || forall k :: 0 <= k < |h| ==> h[k].producer != hd.producer
  }

  /** A producer whose range is new did not confirm any block of it before. */
  lemma RangeIsUnconfirmed(s: State, h: seq<Block>, hd: Header, num: nat)
    requires Remembered(s, h) && hd.producer in s.active.producers && RangeIsNew(s, hd)
    requires Fresh(s, h, hd) && s.blockNum + 1 - hd.confirmed <= num
    ensures hd.producer !in Confirmers(h, num)
  {
    forall k: nat | k < |h| && Covers(h, k, num) ensures h[k].producer != hd.producer {
      assert RemembersBlock(s, h[k].producer, Number(k));
    }
  }

  ghost function NewBlock(s: State, hd: Header): Block {
    Block(hd.producer, hd.confirmed, |s.active.producers|)
  }

  /** The effect of one block on what a tracked block is missing. */
  lemma MissingAfter(s: State, h: seq<Block>, hd: Header, num: nat)
    requires Remembered(s, h) && hd.producer in s.active.producers && RangeIsNew(s, hd) && s.blockNum == |h| + 1
    requires Fresh(s, h, hd) && 2 <= num < |h| + 2
    ensures Missing(h + [NewBlock(s, hd)], num) == Missing(h, num) - (if num >= s.blockNum + 1 - hd.confirmed then 1 else 0)
  {
    ConfirmersGrow(h, NewBlock(s, hd), num);
    if num >= s.blockNum + 1 - hd.confirmed {
      RangeIsUnconfirmed(s, h, hd, num);
    }
  }

  lemma MissingOfNew(s: State, h: seq<Block>, hd: Header)
    requires s.blockNum == |h| + 1
    ensures Missing(h + [NewBlock(s, hd)], |h| + 2) == |s.active.producers| * 2 / 3
  {
    var b := NewBlock(s, hd);
    ConfirmersGrow(h, b, |h| + 2);
    assert Confirmers(h, |h| + 2) == {};
    assert Confirmers(h + [b], |h| + 2) == {b.producer};
  }

  ghost predicate IsPending(counts: seq<Byte>, i: nat, first: int, h: seq<Block>, confirmed: nat)
    requires i < |counts| <= |h| && first + |counts| == |h| + 2
  {
    && 1 <= counts[i] <= 0xFF
    && counts[i] == Missing(h, first + i) + (if i >= |counts| - (confirmed + 1) then 1 else 0)
  }

  /** The counts with the new block's own, before it is taken into account what it confirms. */
  ghost predicate Pending(counts: seq<Byte>, first: int, h: seq<Block>, confirmed: nat) {
    && |counts| <= |h| && first + |counts| == |h| + 2
    && forall i :: 0 <= i < |counts| ==> IsPending(counts, i, first, h, confirmed)
  }

  lemma GrownIsPending(s: State, h: seq<Block>, hd: Header)
    requires Counted(s, h) && Remembered(s, h) && hd.producer in s.active.producers && RangeIsNew(s, hd)
    requires Fresh(s, h, hd) && Fits(s.active.producers)
    ensures var counts := Grown(s.counts, Required(|s.active.producers|));
            Pending(counts, s.blockNum + 2 - |counts|, h + [NewBlock(s, hd)], hd.confirmed)
  {
    hide RangeIsNew, Remembered, Missing, Fresh;
    var h' := h + [NewBlock(s, hd)];
    var counts := Grown(s.counts, Required(|s.active.producers|));
    var first := s.blockNum + 2 - |counts|;
    MissingOfNew(s, h, hd);
    forall i | 0 <= i < |counts| - 1
      ensures IsPending(counts, i, first, h', hd.confirmed)
    {
      var j := i + (|s.counts| + 1 - |counts|);
      assert counts[i] == s.counts[j] && Tracked(s, j) == first + i;
      MissingAfter(s, h, hd, first + i);
    }
  }

  lemma ConfirmCounts(counts: seq<Byte>, first: int, h: seq<Block>, confirmed: nat)
    requires Pending(counts, first, h, confirmed)
    ensures var z, r := LastOne(counts, confirmed + 1), Lowered(counts, confirmed + 1);
            && (forall i :: z < i < |counts| ==> 1 <= r[i] <= 0xFF && r[i] == Missing(h, first + i))
            && (z >= 0 ==> 2 <= first + z < |h| + 2 && Missing(h, first + z) == 0)
  {
    hide Missing;
    var z, r := LastOne(counts, confirmed + 1), Lowered(counts, confirmed + 1);
    forall i | z < i < |counts| ensures 1 <= r[i] <= 0xFF && r[i] == Missing(h, first + i) {
      assert IsPending(counts, i, first, h, confirmed);
    }
    if z >= 0 {
      assert IsPending(counts, z, first, h, confirmed);
    }
  }

  lemma NoneMissing(h: seq<Block>, num: nat)
    requires 2 <= num < |h| + 2 && Missing(h, num) <= 0
    ensures Settled(h, num)
  {
  }

  lemma LastIrreversibleIsImplied(m: map<Name, nat>)
    requires m != map[]
    ensures exists p :: p in m && m[p] == LastIrreversible(m)
  {
    var b := LastIrreversible(m);
    LastIrreversibleIffBacked(m, b);
    LastIrreversibleIffBacked(m, b + 1);
    assert Backers(m, b) - Backers(m, b + 1) != {} by {
      Within(Backers(m, b), Backers(m, b + 1) + (Backers(m, b) - Backers(m, b + 1)));
    }
    var p :| p in Backers(m, b) - Backers(m, b + 1);
  }

  lemma ConfirmParts(g: State, prev: nat)
    requires |g.counts| <= g.blockNum
    ensures var c, z := Confirm(g, prev), LastOne(g.counts, prev + 1);
            c == g.(counts := Lowered(g.counts, prev + 1)[z + 1..],
                    proposed := if z < 0 then g.proposed else g.blockNum + 1 - |g.counts| + z)
  {
    hide Lowered, LastOne;
  }

  lemma ConfirmCounted(g: State, h: seq<Block>, prev: nat)
    requires Pending(g.counts, g.blockNum + 1 - |g.counts|, h, prev) && g.blockNum == |h| + 1 && |g.counts| <= |h|
    requires g.proposed <= g.blockNum - |g.counts|
    ensures var c := Confirm(g, prev);
            && Counted(c, h) && g.proposed <= c.proposed <= c.blockNum - |c.counts|
            && (c.proposed != g.proposed ==> Settled(h, c.proposed))
  {
    hide Missing, Settled, Lowered, LastOne, Pending, Confirm, Counted;
    var first := g.blockNum + 1 - |g.counts|;
    ConfirmCounts(g.counts, first, h, prev);
    ConfirmParts(g, prev);
    var z, r := LastOne(g.counts, prev + 1), Lowered(g.counts, prev + 1);
    CountedFrom(Confirm(g, prev), h, r, z + 1, first);
    if z >= 0 {
      NoneMissing(h, first + z);
    }
  }

  lemma CountedFrom(c: State, h: seq<Block>, r: seq<Byte>, k: nat, first: int)
    requires k <= |r| && c.counts == r[k..] && c.blockNum == |h| + 1 == first + |r| - 1 && |r| <= |h|
    requires forall i :: k <= i < |r| ==> 1 <= r[i] <= 0xFF && r[i] == Missing(h, first + i)
    ensures Counted(c, h)
  {
    hide Missing;
    forall i | 0 <= i < |c.counts| ensures 1 <= c.counts[i] <= 0xFF && c.counts[i] == Missing(h, Tracked(c, i)) {
      assert c.counts[i] == r[k + i] && Tracked(c, i) == first + (k + i);
    }
  }

  lemma GeneratedIsSettled(s: State, h: seq<Block>, hd: Header)
    requires AllSettled(s, h) && s.active.producers != []
    ensures var g, h' := Generated(s, hd.slot), h + [NewBlock(s, hd)];
            && Settled(h', s.proposed) && Settled(h', g.irreversible) && g.irreversible <= s.proposed
            && (forall p :: p in g.implied ==> Settled(h', g.implied[p]) && g.implied[p] <= s.proposed)
  {
    hide Settled, LastIrreversible, Scheduled;
    var g, b := Generated(s, hd.slot), NewBlock(s, hd);
    SettledStays(h, b, s.proposed);
    forall p | p in s.implied ensures Settled(h + [b], s.implied[p]) {
      SettledStays(h, b, s.implied[p]);
    }
    assert g.producer in g.implied;
    LastIrreversibleIsImplied(g.implied);
  }

  lemma GeneratedRemembers(s: State, h: seq<Block>, hd: Header)
    requires Remembered(s, h) && s.active.producers != [] && s.blockNum == |h| + 1
    requires Scheduled(s.active.producers, hd.slot) == hd.producer
    ensures Remembered(Generated(s, hd.slot), h + [NewBlock(s, hd)])
  {
    hide LastIrreversible, Scheduled;
    var g, h' := Generated(s, hd.slot), h + [NewBlock(s, hd)];
    forall k: nat | k < |h'| ensures RemembersBlock(g, h'[k].producer, Number(k)) {
      if k < |h| {
        assert RemembersBlock(s, h[k].producer, Number(k));
      }
    }
  }

  lemma PromotedRemembers(c: State, h: seq<Block>)
    requires Remembered(c, h) && MayPromote(c)
    ensures Remembered(Promoted(c), h)
  {
    forall k: nat | k < |h| ensures RemembersBlock(Promoted(c), h[k].producer, Number(k)) {
      assert RemembersBlock(c, h[k].producer, Number(k));
    }
  }

  lemma ProposingRemembers(c: State, h: seq<Block>, next: Schedule)
    requires Remembered(c, h)
    ensures Remembered(Proposing(c, next), h)
  {
    forall k: nat | k < |h| ensures RemembersBlock(Proposing(c, next), h[k].producer, Number(k)) {
      assert RemembersBlock(c, h[k].producer, Number(k));
    }
  }

  lemma ScheduledIsActive(producers: seq<Name>, slot: nat)
    requires producers != []
    ensures Scheduled(producers, slot) in producers
  {
  }

  lemma ConfirmKeeps(s: State, h: seq<Block>, hd: Header)
    requires Inv(s, h) && RangeIsNew(s, hd) && Fresh(s, h, hd)
    requires Scheduled(s.active.producers, hd.slot) == hd.producer
    ensures var c := Confirm(Generated(s, hd.slot), hd.confirmed);
            Inv(c, h + [NewBlock(s, hd)])
  {
    hide Missing, Settled, LastIrreversible, Scheduled, RangeIsNew, RemembersBlock, Lowered, Grown, Pending, Fresh;
    ScheduledIsActive(s.active.producers, hd.slot);
    GrownIsPending(s, h, hd);
    ConfirmCounted(Generated(s, hd.slot), h + [NewBlock(s, hd)], hd.confirmed);
    GeneratedIsSettled(s, h, hd);
    GeneratedRemembers(s, h, hd);
    ConfirmRemembers(Generated(s, hd.slot), h + [NewBlock(s, hd)], hd.confirmed);
  }

  lemma ConfirmRemembers(g: State, h: seq<Block>, prev: nat)
    requires Remembered(g, h) && |g.counts| <= g.blockNum
    ensures Remembered(Confirm(g, prev), h)
  {
    forall k: nat | k < |h| ensures RemembersBlock(Confirm(g, prev), h[k].producer, Number(k)) {
      assert RemembersBlock(g, h[k].producer, Number(k));
    }
  }

  /** Every accepted block keeps the counts, unless its range reaches below block 0 and its producer
      has a block already. */
  lemma NextKeepsInv(s: State, h: seq<Block>, hd: Header)
    requires Inv(s, h) && Next(s, hd).Some? && Fresh(s, h, hd)
    requires hd.newProducers.Some? ==> Fits(hd.newProducers.value.producers)
    ensures Inv(Next(s, hd).value, h + [NewBlock(s, hd)])
  {
    hide Settled, RangeIsNew, Fresh, Remembered, Missing, LastIrreversible, Scheduled, Confirm, Grown, Fits;
    ConfirmKeeps(s, h, hd);
    var c, h' := Confirm(Generated(s, hd.slot), hd.confirmed), h + [NewBlock(s, hd)];
    if MayPromote(c) {
      PromotedRemembers(c, h');
      NoneFits();
    } else if hd.newProducers.Some? {
      ProposingRemembers(c, h', hd.newProducers.value);
    }
  }

  lemma NoneFits()
    ensures Fits([])
  {
  }

  // ----- whole chains -----

  /** The state of the first block: one producer, and no block tracked. */
  function Genesis(first: Name, slot: nat): State {
    var schedule := Schedule(0, [first]);
    State(1, slot, first, 0, 0, 0, schedule, schedule, map[], map[], [])
  }

  /** The state after a chain of blocks, if every header is accepted. */
  ghost function Run(s0: State, hs: seq<Header>): (r: Option<State>)
    requires Formed(s0)
    ensures r.Some? ==> Formed(r.value)
  {
    if hs == [] then Some(s0)
    else
      var before := Run(s0, hs[..|hs| - 1]);
      if before.None? then None else Next(before.value, hs[|hs| - 1])
  }

  /** The blocks of an accepted chain. */
  ghost function History(s0: State, hs: seq<Header>): seq<Block>
    requires Formed(s0)
  {
    if hs == [] then []
    else
      var before := Run(s0, hs[..|hs| - 1]);
      History(s0, hs[..|hs| - 1]) + (if before.None? then [] else [NewBlock(before.value, hs[|hs| - 1])])
  }

  /** No range of a producer that has a block reaches below block 0, and eight bits hold every
      count. */
  ghost predicate Ordinary(hs: seq<Header>) {
    forall k :: 0 <= k < |hs| ==> OrdinaryAt(hs, k)
  }

  ghost predicate OrdinaryAt(hs: seq<Header>, k: nat)
    requires k < |hs|
  {
    && (hs[k].confirmed <= Number(k) || forall j :: 0 <= j < k ==> hs[j].producer != hs[k].producer)
    && (hs[k].newProducers.Some? ==> Fits(hs[k].newProducers.value.producers))
  }

  ghost predicate SameProducers(h: seq<Block>, hs: seq<Header>) {
    |h| == |hs| && forall k :: 0 <= k < |hs| ==> h[k].producer == hs[k].producer
  }

  lemma {:induction false} HistoryOf(s0: State, hs: seq<Header>)
    requires Formed(s0) && Run(s0, hs).Some?
    ensures SameProducers(History(s0, hs), hs)
  {
    hide Next, Formed;
    if hs != [] {
      HistoryOf(s0, hs[..|hs| - 1]);
    }
  }

  lemma OrdinaryIsFresh(s: State, h: seq<Block>, hs: seq<Header>)
    requires Ordinary(hs) && hs != [] && SameProducers(h, hs[..|hs| - 1]) && s.blockNum == |hs|
    ensures Fresh(s, h, hs[|hs| - 1]) && Ordinary(hs[..|hs| - 1])
    ensures hs[|hs| - 1].newProducers.Some? ==> Fits(hs[|hs| - 1].newProducers.value.producers)
  {
    hide Fits;
    var n := |hs| - 1;
    assert OrdinaryAt(hs, n);
    forall k | 0 <= k < n ensures OrdinaryAt(hs[..n], k) {
      assert OrdinaryAt(hs, k);
    }
  }

  lemma {:induction false} RunKeepsInv(first: Name, slot: nat, hs: seq<Header>)
    requires Ordinary(hs) && Run(Genesis(first, slot), hs).Some?
    ensures Inv(Run(Genesis(first, slot), hs).value, History(Genesis(first, slot), hs))
  {
    hide Inv, Next, Fits, Ordinary, Fresh, SameProducers;
    var s0 := Genesis(first, slot);
    if hs == [] {
      GenesisInv(first, slot);
    } else {
      var n := |hs| - 1;
      var s, h := Run(s0, hs[..n]).value, History(s0, hs[..n]);
      HistoryOf(s0, hs[..n]);
      RunCounts(s0, hs[..n]);
      OrdinaryIsFresh(s, h, hs);
      RunKeepsInv(first, slot, hs[..n]);
      NextKeepsInv(s, h, hs[n]);
    }
  }

  lemma {:induction false} RunCounts(s0: State, hs: seq<Header>)
    requires Formed(s0) && Run(s0, hs).Some?
    ensures Run(s0, hs).value.blockNum == s0.blockNum + |hs|
  {
    hide Next, Formed;
    if hs != [] {
      var n := |hs| - 1;
      RunCounts(s0, hs[..n]);
      NextNumber(Run(s0, hs[..n]).value, hs[n]);
    }
  }

  lemma NextNumber(s: State, hd: Header)
    requires Formed(s) && Next(s, hd).Some?
    ensures Next(s, hd).value.blockNum == s.blockNum + 1
  {
    hide LastIrreversible, Lowered, LastOne, Grown, Scheduled, Carried, RangeIsNew;
  }

  lemma GenesisInv(first: Name, slot: nat)
    ensures Inv(Genesis(first, slot), [])
  {
  }

  /** In every chain the proposed and the irreversible block were each confirmed by different
      producers, more than two thirds as many as were active when the block was produced. */
  lemma IrreversibleBlocksAreConfirmed(first: Name, slot: nat, hs: seq<Header>)
    requires Ordinary(hs) && Run(Genesis(first, slot), hs).Some?
    ensures var s, h := Run(Genesis(first, slot), hs).value, History(Genesis(first, slot), hs);
            && Settled(h, s.proposed) && Settled(h, s.irreversible)
            && (forall p :: p in s.implied ==> Settled(h, s.implied[p]))
  {
    hide Settled, Next;
    RunKeepsInv(first, slot, hs);
  }

  // ----- what holds of every accepted chain -----

  /** Nothing is tracked at or below the proposed block, nothing implied lies above it, and no last
      block of a producer is yet to come. */
  ghost predicate Shaped(s: State) {
    && Formed(s) && s.irreversible <= s.proposed <= s.blockNum - |s.counts|
    && (forall p :: p in s.implied ==> s.implied[p] <= s.proposed)
    && (forall p :: p in s.lastProduced ==> s.lastProduced[p] <= s.blockNum)
  }

  lemma GeneratedIsShaped(s: State, slot: nat)
    requires Shaped(s)
    ensures Shaped(Generated(s, slot))
  {
    hide LastIrreversible, Scheduled;
    var g := Generated(s, slot);
    assert g.producer in g.implied;
    LastIrreversibleIsImplied(g.implied);
  }

  lemma ConfirmIsShaped(g: State, prev: nat)
    requires Shaped(g)
    ensures Shaped(Confirm(g, prev)) && g.proposed <= Confirm(g, prev).proposed
  {
    hide Lowered, LastOne, Confirm;
    ConfirmParts(g, prev);
    ConfirmLength(g, prev);
  }

  lemma ConfirmLength(g: State, prev: nat)
    requires |g.counts| <= g.blockNum && g.proposed <= g.blockNum - |g.counts|
    ensures g.proposed <= Confirm(g, prev).proposed <= g.blockNum - |Confirm(g, prev).counts|
  {
    hide Lowered, LastOne;
  }

  lemma NextKeepsShape(s: State, hd: Header)
    requires Shaped(s) && Next(s, hd).Some?
    ensures Shaped(Next(s, hd).value) && s.proposed <= Next(s, hd).value.proposed
  {
    hide LastIrreversible, Scheduled, Confirm, RangeIsNew, Grown;
    GeneratedIsShaped(s, hd.slot);
    ConfirmIsShaped(Generated(s, hd.slot), hd.confirmed);
  }

  /** In every accepted chain the irreversible block was proposed first. */
  lemma {:induction false} RunIsShaped(first: Name, slot: nat, hs: seq<Header>)
    requires Run(Genesis(first, slot), hs).Some?
    ensures Shaped(Run(Genesis(first, slot), hs).value)
  {
    hide Next, Shaped;
    var s0 := Genesis(first, slot);
    if hs == [] {
      GenesisIsShaped(first, slot);
    } else {
      var n := |hs| - 1;
      RunIsShaped(first, slot, hs[..n]);
      NextKeepsShape(Run(s0, hs[..n]).value, hs[n]);
    }
  }

  lemma GenesisIsShaped(first: Name, slot: nat)
    ensures Shaped(Genesis(first, slot))
  {
  }

  /** The proposed block never falls along an accepted chain. */
  lemma {:induction false} ProposedRises(first: Name, slot: nat, hs: seq<Header>, k: nat)
    requires Run(Genesis(first, slot), hs).Some? && k <= |hs|
    ensures Run(Genesis(first, slot), hs[..k]).Some?
    ensures Run(Genesis(first, slot), hs[..k]).value.proposed <= Run(Genesis(first, slot), hs).value.proposed
  {
    hide Shaped, Next;
    var s0 := Genesis(first, slot);
    if k == |hs| {
      assert hs[..k] == hs;
    } else {
      var n := |hs| - 1;
      assert hs[..n][..k] == hs[..k];
      ProposedRises(first, slot, hs[..n], k);
      RunIsShaped(first, slot, hs[..n]);
      NextKeepsShape(Run(s0, hs[..n]).value, hs[n]);
    }
  }

  // ----- when the irreversible block may fall, and when a block is confirmed twice -----

  /** The next block's irreversible number reaches `b` exactly when more than two thirds of the
      producers of the current map back it. */
  lemma NextIrreversibleIff(s: State, hd: Header, b: nat)
    requires Formed(s) && Next(s, hd).Some?
    ensures b <= Next(s, hd).value.irreversible <==> Backed(s.implied[hd.producer := s.proposed], b)
  {
    hide LastIrreversible, Lowered, LastOne, Grown, Scheduled, Carried, Backed;
    var m := s.implied[hd.producer := s.proposed];
    assert hd.producer in m;
    LastIrreversibleIffBacked(m, b);
  }

  /** The irreversible block is the one the current map implies; this fails only right after a
      change of the schedule. */
  ghost predicate Steady(s: State) {
    s.irreversible == LastIrreversible(s.implied)
  }

  ghost predicate Promotes(s: State, hd: Header)
    requires Formed(s)
  {
    MayPromote(Confirm(Generated(s, hd.slot), hd.confirmed))
  }

  /** The irreversible block does not fall in the block after one that leaves the schedule as it
      is; and a block that leaves it so leads to such a state again. */
  lemma IrreversibleRises(s: State, hd: Header)
    requires Shaped(s) && Next(s, hd).Some?
    ensures Steady(s) && hd.producer in s.implied ==> s.irreversible <= Next(s, hd).value.irreversible
    ensures !Promotes(s, hd) ==> Steady(Next(s, hd).value) && hd.producer in Next(s, hd).value.implied
  {
    hide LastIrreversible, Lowered, LastOne, Grown, Scheduled, Carried, Counted, Remembered, Settled;
    if Steady(s) && hd.producer in s.implied {
      LastIrreversibleRises(s.implied, s.implied[hd.producer := s.proposed]);
    }
  }

  /** A block confirms a block its producer confirmed before exactly when its range reaches
      below block 0, where 32-bit subtraction wraps around, and the producer has a block. */
  lemma ConfirmsTwiceIff(s: State, h: seq<Block>, hd: Header)
    requires Inv(s, h) && Next(s, hd).Some?
    ensures (exists num: nat :: num >= s.blockNum + 1 - hd.confirmed && hd.producer in Confirmers(h, num)) <==> !Fresh(s, h, hd)
  {
    hide Counted, AllSettled, Settled, LastIrreversible, Confirm, Remembered, RangeIsNew, Fits;
    ScheduledIsActive(s.active.producers, hd.slot);
    if Fresh(s, h, hd) {
      forall num: nat | num >= s.blockNum + 1 - hd.confirmed ensures hd.producer !in Confirmers(h, num) {
        RangeIsUnconfirmed(s, h, hd, num);
      }
    } else {
      var k :| 0 <= k < |h| && h[k].producer == hd.producer;
      assert Covers(h, k, Number(k));
      assert hd.producer in Confirmers(h, Number(k));
    }
  }

  /** Such a range passes the check for double confirmations. */
  lemma WrappedRangeIsNew(s: State, hd: Header)
    requires Shaped(s) && hd.confirmed > s.blockNum + 1
    ensures RangeIsNew(s, hd)
  {
  }
}
