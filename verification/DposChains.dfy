/** Two chains from the first block on. In one the irreversible block falls after a change of the
    producer schedule. In the other a block claims to confirm more blocks than there are, the check
    for double confirmations wraps around, and a block is proposed that one of two producers
    confirmed. */
module DposChains {
  import opened Options
  import opened Dpos

  // ----- what one block does to an explicit state -----

  /** What is known of a new block without looking at the schedules. */
  ghost predicate Extends(s: State, hd: Header, lib: nat, counts: seq<Byte>, proposed: nat) {
    && Formed(s) && hd.slot > s.slot && hd.version == s.active.version
    && Scheduled(s.active.producers, hd.slot) == hd.producer && RangeIsNew(s, hd)
    && LastIrreversible(s.implied[hd.producer := s.proposed]) == lib
    && Counting(s, hd.confirmed, counts, proposed)
  }

  /** The counts and the proposed block after a block that confirms `prev` blocks before it. */
  ghost predicate Counting(s: State, prev: nat, counts: seq<Byte>, proposed: nat) {
    var grown := Grown(s.counts, Required(|s.active.producers|));
    var z := LastOne(grown, prev + 1);
    && counts == Lowered(grown, prev + 1)[z + 1..]
    && proposed == if z < 0 then s.proposed else s.blockNum + 2 - |grown| + z
  }

  ghost function Extended(s: State, hd: Header, lib: nat, counts: seq<Byte>, proposed: nat): State {
    s.(blockNum := s.blockNum + 1, slot := hd.slot, producer := hd.producer,
       lastProduced := s.lastProduced[hd.producer := s.blockNum + 1], implied := s.implied[hd.producer := s.proposed],
       irreversible := lib, counts := counts, proposed := proposed)
  }

  lemma NextIs(s: State, hd: Header, lib: nat, counts: seq<Byte>, proposed: nat)
    requires Extends(s, hd, lib, counts, proposed)
    ensures var c := Extended(s, hd, lib, counts, proposed);
            Next(s, hd) ==
              if MayPromote(c) then (if hd.newProducers.Some? then None else Some(Promoted(c)))
              else if hd.newProducers.None? then Some(c)
              else if MayPropose(c, hd.newProducers.value) then Some(Proposing(c, hd.newProducers.value))
              else None
  {
    hide LastIrreversible, Lowered, LastOne, Grown, Scheduled, Confirm, Promoted, RangeIsNew, Required;
    ConfirmParts(Generated(s, hd.slot), hd.confirmed);
  }

  lemma NewRange(s: State, hd: Header)
    requires hd.producer in s.lastProduced && s.lastProduced[hd.producer] < s.blockNum + 1 - hd.confirmed < 1000
    ensures RangeIsNew(s, hd)
  {
  }

  // ----- the last irreversible block of small maps -----

  lemma LibOfOne(p: Name, b: nat)
    ensures LastIrreversible(map[p := b]) == b
  {
    hide LastIrreversible;
    var m := map[p := b];
    assert m.Keys == {p} && |m| == |m.Keys|;
    assert Backers(m, b) == {p} && Backers(m, b + 1) == {};
    LastIrreversibleIs(m, b);
  }

  lemma LibOfTwo(x: nat, y: nat)
    requires y <= x
    ensures LastIrreversible(map[1 := x, 2 := y]) == y
  {
    hide LastIrreversible;
    var m := map[1 := x, 2 := y];
    assert m.Keys == {1, 2} && |m| == |m.Keys|;
    assert Backers(m, y) == {1, 2} && 2 !in Backers(m, y + 1);
    Within(Backers(m, y + 1), {1});
    LastIrreversibleIs(m, y);
  }

  function Four(a: nat, b: nat, c: nat, d: nat): map<Name, nat> {
    map[1 := a, 2 := b, 3 := c, 4 := d]
  }

  lemma SizeOfFour(a: nat, b: nat, c: nat, d: nat)
    ensures Four(a, b, c, d) != map[] && |Four(a, b, c, d)| == 4
  {
    var m := Four(a, b, c, d);
    assert m.Keys == {1, 2, 3, 4} && |m| == |m.Keys|;
    assert 1 in m;
  }

  /** Three of four producers decide. */
  lemma LibOfFour(a: nat, b: nat, c: nat, d: nat, lib: nat, yes: set<Name>, no: set<Name>)
    requires yes <= Backers(Four(a, b, c, d), lib) && |yes| == 3
    requires Backers(Four(a, b, c, d), lib + 1) <= no && |no| <= 2
    ensures LastIrreversible(Four(a, b, c, d)) == lib
  {
    hide LastIrreversible, Backers, Four;
    var m := Four(a, b, c, d);
    SizeOfFour(a, b, c, d);
    Within(yes, Backers(m, lib));
    Within(Backers(m, lib + 1), no);
    LastIrreversibleIs(m, lib);
  }

  // ----- counts -----

  lemma LoweredOne(counts: seq<Byte>, c: Byte)
    requires c > 0
    ensures Lowered(counts + [c], 1) == counts + [c - 1]
  {
    var all := counts + [c];
    forall k | 0 <= k < |all| ensures Lowered(all, 1)[k] == (counts + [c - 1])[k] {
    }
  }

  lemma LastOfOne(counts: seq<Byte>, c: Byte)
    ensures LastOne(counts + [c], 1) == if c == 1 then |counts| else -1
  {
    var all := counts + [c];
    assert all[..|all| - 1] == counts;
    NoneOfNone(counts);
  }

  lemma NoneOfNone(counts: seq<Byte>)
    ensures LastOne(counts, 0) == -1
  {
  }

  /** A single producer proposes its own block at once. */
  lemma CountAlone(s: State)
    requires s.counts == [] && |s.active.producers| == 1 && s.blockNum >= 1
    ensures Counting(s, 0, [], s.blockNum + 1)
  {
    LoweredOne([], 1);
    LastOfOne([], 1);
    assert Grown([], 1) == [] + [1];
  }

  lemma Needed()
    ensures Required(2) == 2 && Required(4) == 3
  {
    FewNeeded(2);
    FewNeeded(4);
  }

  lemma FewNeeded(n: nat)
    requires n < 100
    ensures Required(n) == n * 2 / 3 + 1
  {
  }

  lemma CountNew(s: State, c: Byte)
    requires |s.counts| < 1000 && Required(|s.active.producers|) == c > 1
    ensures Counting(s, 0, s.counts + [c - 1], s.proposed)
  {
    LoweredOne(s.counts, c);
    LastOfOne(s.counts, c);
    assert (s.counts + [c - 1])[0..] == s.counts + [c - 1];
  }

  // ----- the first blocks -----

  const V0 := Schedule(0, [9])

  /** One producer proposes a schedule, which becomes active in its third block. */
  function Opening(v: Schedule): seq<Header> {
    [Header(1, 9, 0, 0, None), Header(2, 9, 0, 0, Some(v)), Header(3, 9, 0, 0, None)]
  }

  function Second(): State {
    State(2, 1, 9, 2, 0, 0, Schedule(0, []), V0, map[9 := 2], map[9 := 0], [])
  }

  function Third(v: Schedule): State {
    State(3, 2, 9, 3, 2, 3, v, V0, map[9 := 3], map[9 := 2], [])
  }

  function Fourth(v: Schedule): State {
    State(4, 3, 9, 4, 3, 3, v.(producers := []), v, Carried(map[9 := 4], v.producers, 3)[9 := 4],
          Carried(map[9 := 3], v.producers, 3), [])
  }

  lemma ToSecond(hd: Header)
    requires hd == Header(1, 9, 0, 0, None)
    ensures Next(Genesis(9, 0), hd) == Some(Second())
  {
    hide LastIrreversible, Lowered, LastOne, Grown, Next, Counting;
    var s := Genesis(9, 0);
    var none: map<Name, nat> := map[];
    LibOfOne(9, 0);
    CountAlone(s);
    assert none[9 := 0] == map[9 := 0] && none[9 := 2] == map[9 := 2];
    assert Carried(map[9 := 2], [9], 0)[9 := 2] == map[9 := 2];
    assert Carried(map[9 := 0], [9], 0) == map[9 := 0];
    NextIs(s, hd, 0, [], 2);
  }

  lemma ToThird(hd: Header, v: Schedule)
    requires hd == Header(2, 9, 0, 0, Some(v)) && v.version == 1
    ensures Next(Second(), hd) == Some(Third(v))
  {
    hide LastIrreversible, Lowered, LastOne, Grown, Next, Counting;
    var s := Second();
    LibOfOne(9, 2);
    CountAlone(s);
    assert s.implied[9 := 2] == map[9 := 2] && s.lastProduced[9 := 3] == map[9 := 3];
    NextIs(s, hd, 2, [], 3);
  }

  lemma ToFourth(hd: Header, v: Schedule)
    requires hd == Header(3, 9, 0, 0, None) && v.version == 1 && v.producers != []
    ensures Next(Third(v), hd) == Some(Fourth(v))
  {
    hide LastIrreversible, Lowered, LastOne, Grown, Next, Counting, Carried;
    var s := Third(v);
    LibOfOne(9, 3);
    CountAlone(s);
    assert s.implied[9 := 3] == map[9 := 3];
    assert s.lastProduced[9 := 4] == map[9 := 4];
    NextIs(s, hd, 3, [], 4);
  }

  lemma RunOneMore(s0: State, hs: seq<Header>, hd: Header, s: State, s': State)
    requires Formed(s0) && Formed(s) && Run(s0, hs) == Some(s) && Next(s, hd) == Some(s')
    ensures Run(s0, hs + [hd]) == Some(s')
    ensures History(s0, hs + [hd]) == History(s0, hs) + [NewBlock(s, hd)]
  {
    hide Next;
    assert (hs + [hd])[..|hs|] == hs;
  }

  lemma Opens(v: Schedule)
    requires v.version == 1 && v.producers != []
    ensures Run(Genesis(9, 0), Opening(v)) == Some(Fourth(v))
    ensures History(Genesis(9, 0), Opening(v)) == [Block(9, 0, 1), Block(9, 0, 1), Block(9, 0, 1)]
  {
    hide Next, Run, History;
    var s0, hs := Genesis(9, 0), Opening(v);
    ToSecond(hs[0]);
    ToThird(hs[1], v);
    ToFourth(hs[2], v);
    assert Run(s0, []) == Some(s0) && History(s0, []) == [] by {
      NoBlocks(s0);
    }
    RunOneMore(s0, [], hs[0], s0, Second());
    RunOneMore(s0, [] + [hs[0]], hs[1], Second(), Third(v));
    RunOneMore(s0, [] + [hs[0]] + [hs[1]], hs[2], Third(v), Fourth(v));
    assert [] + [hs[0]] + [hs[1]] + [hs[2]] == hs;
  }

  lemma NoBlocks(s0: State)
    requires Formed(s0)
    ensures Run(s0, []) == Some(s0) && History(s0, []) == []
  {
  }

  // ----- a range that wraps around -----

  const V_TWO := Schedule(1, [1, 2])

  /** Producer 1 produces block 5, and block 6 with a claim to confirm seven blocks before it. */
  const WRAPPED: seq<Header> := Opening(V_TWO) + [Header(4, 1, 1, 0, None)] + [Header(5, 1, 1, 7, None)]

  function Start(): State {
    State(4, 3, 9, 4, 3, 3, Schedule(1, []), V_TWO, map[1 := 3, 2 := 3, 9 := 4], map[1 := 3, 2 := 3], [])
  }

  lemma StartIs()
    ensures Fourth(V_TWO) == Start()
  {
    assert Carried(map[9 := 4], [1, 2], 3)[9 := 4] == map[1 := 3, 2 := 3, 9 := 4];
    assert Carried(map[9 := 3], [1, 2], 3) == map[1 := 3, 2 := 3];
  }

  function WrappedFifth(): State {
    State(5, 4, 1, 4, 3, 3, Schedule(1, []), V_TWO, map[1 := 5, 2 := 3, 9 := 4], map[1 := 4, 2 := 3], [1])
  }

  function WrappedSixth(): State {
    State(6, 5, 1, 5, 3, 3, Schedule(1, []), V_TWO, map[1 := 6, 2 := 3, 9 := 4], map[1 := 4, 2 := 3], [1])
  }

  lemma ToWrappedFifth()
    ensures Next(Start(), Header(4, 1, 1, 0, None)) == Some(WrappedFifth())
  {
    hide LastIrreversible, Lowered, LastOne, Grown, Next, Counting, Scheduled, RangeIsNew, Promoted, Required;
    Turns();
    assert [] + [1] == [1];
    var s, hd := Start(), Header(4, 1, 1, 0, None);
    LibOfTwo(4, 3);
    Needed();
    CountNew(s, 2);
    assert s.implied[1 := 4] == map[1 := 4, 2 := 3];
    assert s.lastProduced[1 := 5] == map[1 := 5, 2 := 3, 9 := 4];
    NewRange(s, hd);
    NextIs(s, hd, 3, [1], 4);
  }

  lemma WrappedCounts()
    ensures Counting(WrappedFifth(), 7, [1], 5)
  {
    var grown := Grown([1], 2);
    assert grown == [1, 2] && [1, 2][..1] == [1];
    assert LastOne(grown, 8) == 0;
    assert Lowered(grown, 8) == [0, 1] && [0, 1][1..] == [1];
  }

  lemma ToWrappedSixth()
    ensures Next(WrappedFifth(), Header(5, 1, 1, 7, None)) == Some(WrappedSixth())
  {
    hide LastIrreversible, Lowered, LastOne, Grown, Next, Counting, Scheduled, Promoted, Required;
    Turns();
    var s, hd := WrappedFifth(), Header(5, 1, 1, 7, None);
    LibOfTwo(4, 3);
    WrappedCounts();
    assert s.implied[1 := 4] == map[1 := 4, 2 := 3];
    assert s.lastProduced[1 := 6] == map[1 := 6, 2 := 3, 9 := 4];
    NextIs(s, hd, 3, [1], 5);
  }

  /** The chain is accepted, and proposes block 5, which one of two producers confirmed. */
  lemma WrappedRangeMayPropose()
    ensures var r, h := Run(Genesis(9, 0), WRAPPED), History(Genesis(9, 0), WRAPPED);
            r.Some? && r.value.proposed == 5 && Confirmers(h, 5) == {1} && !Settled(h, 5)
  {
    hide Next, Run, History;
    var s0 := Genesis(9, 0);
    Opens(V_TWO);
    StartIs();
    ToWrappedFifth();
    ToWrappedSixth();
    RunOneMore(s0, Opening(V_TWO), Header(4, 1, 1, 0, None), Start(), WrappedFifth());
    RunOneMore(s0, Opening(V_TWO) + [Header(4, 1, 1, 0, None)], Header(5, 1, 1, 7, None), WrappedFifth(), WrappedSixth());
    WrappedConfirmers();
    assert [Block(9, 0, 1), Block(9, 0, 1), Block(9, 0, 1)] + [Block(1, 0, 2)] + [Block(1, 7, 2)] == WRAPPED_HISTORY;
  }

  const WRAPPED_HISTORY := [Block(9, 0, 1), Block(9, 0, 1), Block(9, 0, 1), Block(1, 0, 2), Block(1, 7, 2)]

  lemma WrappedConfirmers()
    ensures Confirmers(WRAPPED_HISTORY, 5) == {1} && !Settled(WRAPPED_HISTORY, 5)
  {
    assert Covers(WRAPPED_HISTORY, 3, 5) && WRAPPED_HISTORY[3].producer == 1;
    assert Confirmers(WRAPPED_HISTORY, 5) == {1};
  }

  // ----- the irreversible block may fall -----

  const V_FOUR := Schedule(1, [1, 2, 3, 4])
  const V_LAST := Schedule(2, [1, 2])

  /** Producer 2 never produces; the schedule after the next keeps it and one other. */
  const FALLING: seq<Header> := [
    Header(4, 1, 1, 0, Some(V_LAST)), Header(24, 3, 1, 1, None), Header(36, 4, 1, 2, None),
    Header(48, 1, 1, 0, None), Header(72, 3, 1, 0, None), Header(84, 4, 1, 0, None), Header(96, 1, 2, 0, None)]

  function Known(a: nat, c: nat, d: nat): map<Name, nat> {
    map[1 := a, 2 := 3, 3 := c, 4 := d, 9 := 4]
  }

  function S4(): State {
    State(4, 3, 9, 4, 3, 3, Schedule(1, []), V_FOUR, Known(3, 3, 3), Four(3, 3, 3, 3), [])
  }

  lemma S4Is()
    ensures Fourth(V_FOUR) == S4()
  {
    assert Carried(map[9 := 4], [1, 2, 3, 4], 3)[9 := 4] == Known(3, 3, 3);
    assert Carried(map[9 := 3], [1, 2, 3, 4], 3) == Four(3, 3, 3, 3);
  }

  function S5(): State {
    State(5, 4, 1, 4, 3, 5, V_LAST, V_FOUR, Known(5, 3, 3), Four(4, 3, 3, 3), [2])
  }

  function S6(): State {
    State(6, 24, 3, 4, 3, 5, V_LAST, V_FOUR, Known(5, 6, 3), Four(4, 3, 4, 3), [1, 2])
  }

  function S7(): State {
    State(7, 36, 4, 5, 4, 5, V_LAST, V_FOUR, Known(5, 6, 7), Four(4, 3, 4, 4), [1, 2])
  }

  function S8(): State {
    State(8, 48, 1, 5, 4, 5, V_LAST, V_FOUR, Known(8, 6, 7), Four(5, 3, 4, 4), [1, 2, 2])
  }

  function S9(): State {
    State(9, 72, 3, 5, 4, 5, V_LAST, V_FOUR, Known(8, 9, 7), Four(5, 3, 5, 4), [1, 2, 2, 2])
  }

  function S10(): State {
    State(10, 84, 4, 5, 5, 5, Schedule(2, []), V_LAST, map[1 := 8, 2 := 3, 4 := 10], map[1 := 5, 2 := 3], [1, 2, 2, 2, 2])
  }

  function S11(): State {
    State(11, 96, 1, 5, 3, 5, Schedule(2, []), V_LAST, map[1 := 11, 2 := 3, 4 := 10], map[1 := 5, 2 := 3], [1, 2, 2, 2, 2, 1])
  }

  /** Producers and ranges along the chain. */
  lemma Turns()
    ensures Scheduled([1, 2, 3, 4], 4) == 1 && Scheduled([1, 2, 3, 4], 24) == 3 && Scheduled([1, 2, 3, 4], 36) == 4
    ensures Scheduled([1, 2, 3, 4], 48) == 1 && Scheduled([1, 2, 3, 4], 72) == 3 && Scheduled([1, 2, 3, 4], 84) == 4
    ensures Scheduled([1, 2], 4) == 1 && Scheduled([1, 2], 5) == 1 && Scheduled([1, 2], 96) == 1
  {
  }

  lemma To5()
    ensures Next(S4(), FALLING[0]) == Some(S5())
  {
    hide LastIrreversible, Lowered, LastOne, Grown, Next, Counting, Scheduled, RangeIsNew, Promoted, Required;
    Turns();
    LibOfFour(4, 3, 3, 3, 3, {1, 2, 3}, {1});
    Needed();
    CountNew(S4(), 3);
    assert S4().implied[1 := 4] == Four(4, 3, 3, 3) && S4().lastProduced[1 := 5] == Known(5, 3, 3);
    assert [] + [2] == [2];
    NewRange(S4(), FALLING[0]);
    NextIs(S4(), FALLING[0], 3, [2], 4);
  }

  lemma Counts6()
    ensures Counting(S5(), 1, [1, 2], 4)
  {
    var grown := Grown([2], 3);
    assert grown == [2, 3] && [2, 3][..1] == [2] && [2][..0] == [];
    assert LastOne(grown, 2) == -1;
    assert Lowered(grown, 2) == [1, 2] && [1, 2][0..] == [1, 2];
  }

  lemma To6()
    ensures Next(S5(), FALLING[1]) == Some(S6())
  {
    hide LastIrreversible, Lowered, LastOne, Grown, Next, Counting, Scheduled, RangeIsNew, Promoted, Required;
    Turns();
    LibOfFour(4, 3, 4, 3, 3, {1, 2, 3}, {1, 3});
    Counts6();
    assert S5().implied[3 := 4] == Four(4, 3, 4, 3) && S5().lastProduced[3 := 6] == Known(5, 6, 3);
    NewRange(S5(), FALLING[1]);
    NextIs(S5(), FALLING[1], 3, [1, 2], 4);
  }

  lemma FirstOfThree()
    ensures LastOne([1, 2, 3], 3) == 0 && Lowered([1, 2, 3], 3) == [0, 1, 2]
  {
    assert [1, 2, 3][..2] == [1, 2] && [1, 2][..1] == [1];
    assert LastOne([1], 1) == 0;
    assert LastOne([1, 2], 2) == 0;
  }

  lemma Counts7()
    ensures Counting(S6(), 2, [1, 2], 5)
  {
    hide LastOne, Lowered, Required;
    Needed();
    FirstOfThree();
    assert Grown([1, 2], 3) == [1, 2, 3];
    assert [0, 1, 2][1..] == [1, 2];
  }

  lemma To7()
    ensures Next(S6(), FALLING[2]) == Some(S7())
  {
    hide LastIrreversible, Lowered, LastOne, Grown, Next, Counting, Scheduled, RangeIsNew, Promoted, Required;
    Turns();
    LibOfFour(4, 3, 4, 4, 4, {1, 3, 4}, {});
    Counts7();
    assert S6().implied[4 := 4] == Four(4, 3, 4, 4) && S6().lastProduced[4 := 7] == Known(5, 6, 7);
    NewRange(S6(), FALLING[2]);
    NextIs(S6(), FALLING[2], 4, [1, 2], 5);
  }

  lemma To8()
    ensures Next(S7(), FALLING[3]) == Some(S8())
  {
    hide LastIrreversible, Lowered, LastOne, Grown, Next, Counting, Scheduled, RangeIsNew, Promoted, Required;
    Turns();
    LibOfFour(5, 3, 4, 4, 4, {1, 3, 4}, {1});
    Needed();
    CountNew(S7(), 3);
    assert [1, 2] + [2] == [1, 2, 2];
    assert S7().implied[1 := 5] == Four(5, 3, 4, 4) && S7().lastProduced[1 := 8] == Known(8, 6, 7);
    NewRange(S7(), FALLING[3]);
    NextIs(S7(), FALLING[3], 4, [1, 2, 2], 5);
  }

  lemma To9()
    ensures Next(S8(), FALLING[4]) == Some(S9())
  {
    hide LastIrreversible, Lowered, LastOne, Grown, Next, Counting, Scheduled, RangeIsNew, Promoted, Required;
    Turns();
    LibOfFour(5, 3, 5, 4, 4, {1, 3, 4}, {1, 3});
    Needed();
    CountNew(S8(), 3);
    assert [1, 2, 2] + [2] == [1, 2, 2, 2];
    assert S8().implied[3 := 5] == Four(5, 3, 5, 4) && S8().lastProduced[3 := 9] == Known(8, 9, 7);
    NewRange(S8(), FALLING[4]);
    NextIs(S8(), FALLING[4], 4, [1, 2, 2, 2], 5);
  }

  lemma CarriedOver()
    ensures Carried(Four(5, 3, 5, 5), [1, 2], 5) == map[1 := 5, 2 := 3]
    ensures Carried(Known(8, 9, 10), [1, 2], 5)[4 := 10] == map[1 := 8, 2 := 3, 4 := 10]
  {
  }

  lemma To10()
    ensures Next(S9(), FALLING[5]) == Some(S10())
  {
    hide LastIrreversible, Lowered, LastOne, Grown, Next, Counting, Scheduled, RangeIsNew, Carried, Required;
    Turns();
    LibOfFour(5, 3, 5, 5, 5, {1, 3, 4}, {});
    Needed();
    CountNew(S9(), 3);
    assert [1, 2, 2, 2] + [2] == [1, 2, 2, 2, 2];
    assert S9().implied[4 := 5] == Four(5, 3, 5, 5) && S9().lastProduced[4 := 10] == Known(8, 9, 10);
    CarriedOver();
    NewRange(S9(), FALLING[5]);
    NextIs(S9(), FALLING[5], 5, [1, 2, 2, 2, 2], 5);
  }

  lemma To11()
    ensures Next(S10(), FALLING[6]) == Some(S11())
  {
    hide LastIrreversible, Lowered, LastOne, Grown, Next, Counting, Scheduled, RangeIsNew, Promoted, Required;
    Turns();
    LibOfTwo(5, 3);
    Needed();
    CountNew(S10(), 2);
    assert [1, 2, 2, 2, 2] + [1] == [1, 2, 2, 2, 2, 1];
    assert S10().implied[1 := 5] == map[1 := 5, 2 := 3];
    assert S10().lastProduced[1 := 11] == map[1 := 11, 2 := 3, 4 := 10];
    NewRange(S10(), FALLING[6]);
    NextIs(S10(), FALLING[6], 3, [1, 2, 2, 2, 2, 1], 5);
  }

  /** The first `k` blocks of the chain. */
  function Chain(k: nat): seq<Header>
    requires k <= 7
  {
    Opening(V_FOUR) + FALLING[..k]
  }

  lemma ChainOneMore(k: nat, s: State, s': State)
    requires k < 7 && Formed(s) && Run(Genesis(9, 0), Chain(k)) == Some(s) && Next(s, FALLING[k]) == Some(s')
    ensures Run(Genesis(9, 0), Chain(k + 1)) == Some(s')
  {
    hide Next, Run;
    RunOneMore(Genesis(9, 0), Chain(k), FALLING[k], s, s');
    assert Chain(k) + [FALLING[k]] == Chain(k + 1);
  }

  lemma FirstSix()
    ensures Run(Genesis(9, 0), Chain(3)) == Some(S7())
  {
    hide Next, Run;
    Opens(V_FOUR);
    S4Is();
    assert Chain(0) == Opening(V_FOUR);
    To5();
    ChainOneMore(0, S4(), S5());
    To6();
    ChainOneMore(1, S5(), S6());
    To7();
    ChainOneMore(2, S6(), S7());
  }

  lemma NextThree()
    ensures Run(Genesis(9, 0), Chain(6)) == Some(S10())
  {
    hide Next, Run;
    FirstSix();
    To8();
    ChainOneMore(3, S7(), S8());
    To9();
    ChainOneMore(4, S8(), S9());
    To10();
    ChainOneMore(5, S9(), S10());
  }

  /** In an accepted chain the irreversible block may fall after a change of the schedule: from
      block 5 to block 3. */
  lemma IrreversibleMayFall()
    ensures var before, after := Run(Genesis(9, 0), Chain(6)), Run(Genesis(9, 0), Chain(7));
            before.Some? && after.Some? && before.value.irreversible == 5 && after.value.irreversible == 3
  {
    hide Next, Run;
    NextThree();
    To11();
    ChainOneMore(6, S10(), S11());
  }
}
