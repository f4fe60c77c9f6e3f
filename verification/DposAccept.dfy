/** Which headers are accepted, told from the chain so far: its slots, its schedules, and who
    confirmed which block; what an accepted header does to the schedules and to the numbers the
    producers stand for; and which blocks are still tracked. */
module DposAccept {
  import opened Dpos
  import DposSafety
  import Schedule

  // ----- slots, versions and turns along a chain -----

  function LastSlot(slot: nat, hs: seq<Header>): nat {
    if hs == [] then slot else hs[|hs| - 1].slot
  }

  lemma NextParts(s: State, hd: Header)
    requires Formed(s) && Next(s, hd).Some?
    ensures hd.slot > s.slot && hd.version == s.active.version && Scheduled(s.active.producers, hd.slot) == hd.producer
    ensures Next(s, hd).value.slot == hd.slot
  {
    hide LastIrreversible, Lowered, LastOne, Grown, Scheduled, Carried, RangeIsNew;
  }

  lemma {:induction false} SlotOfRun(s0: State, hs: seq<Header>)
    requires Formed(s0) && Run(s0, hs).Some?
    ensures Run(s0, hs).value.slot == LastSlot(s0.slot, hs)
  {
    hide Next, Formed;
    if hs != [] {
      NextParts(Run(s0, hs[..|hs| - 1]).value, hs[|hs| - 1]);
    }
  }

  /** The header at `k` fits the chain before it. */
  ghost predicate FitsAt(s0: State, hs: seq<Header>, k: nat)
    requires Formed(s0) && k < |hs|
  {
    var r := Run(s0, hs[..k]);
    && r.Some? && hs[k].slot > LastSlot(s0.slot, hs[..k]) && hs[k].version == r.value.active.version
    && hs[k].producer == Schedule.Turn(r.value.active.producers, hs[k].slot)
  }

  /** Along every accepted chain slots rise, every header carries the version of the schedule that is
      active when it is applied, and it is its producer's turn. */
  lemma {:induction false} HeadersFit(s0: State, hs: seq<Header>, k: nat)
    requires Formed(s0) && Run(s0, hs).Some? && k < |hs|
    ensures FitsAt(s0, hs, k)
  {
    hide Next, Formed, Schedule.Turn;
    var n := |hs| - 1;
    if k == n {
      var s := Run(s0, hs[..n]).value;
      NextParts(s, hs[n]);
      SlotOfRun(s0, hs[..n]);
      FormedSchedule(s);
      Schedule.TurnIsScheduled(s.active.producers, hs[n].slot);
    } else {
      HeadersFit(s0, hs[..n], k);
      assert hs[..n][..k] == hs[..k];
    }
  }

  lemma FormedSchedule(s: State)
    requires Formed(s)
    ensures s.active.producers != []
  {
  }

  lemma {:induction false} SlotsRise(s0: State, hs: seq<Header>, i: nat, j: nat)
    requires Formed(s0) && Run(s0, hs).Some? && i < j < |hs|
    ensures s0.slot < hs[i].slot < hs[j].slot
    decreases j
  {
    hide Run, Formed;
    HeadersFit(s0, hs, j);
    if i + 1 < j {
      SlotsRise(s0, hs, i, j - 1);
    } else {
      FirstSlot(s0, hs, i);
    }
  }

  lemma {:induction false} FirstSlot(s0: State, hs: seq<Header>, i: nat)
    requires Formed(s0) && Run(s0, hs).Some? && i < |hs|
    ensures s0.slot < hs[i].slot
  {
    hide Run, Formed;
    HeadersFit(s0, hs, i);
    if i > 0 {
      FirstSlot(s0, hs, i - 1);
    }
  }

  // ----- what a header does to the schedules and the numbers -----

  /** More than two thirds back the block that proposed the pending schedule. */
  ghost predicate MakesActive(s: State, hd: Header) {
    s.pending.producers != [] && Backed(s.implied[hd.producer := s.proposed], s.pendingLib)
  }

  lemma PromotesIff(s: State, hd: Header)
    requires Shaped(s) && Next(s, hd).Some?
    ensures MayPromote(DposSafety.Grew(s, hd)) <==> MakesActive(s, hd)
  {
    hide Next, DposSafety.Grew, LastIrreversible, Backed, Shaped;
    DposSafety.GrewParts(s, hd);
    var m := s.implied[hd.producer := s.proposed];
    assert hd.producer in m;
    LastIrreversibleIffBacked(m, s.pendingLib);
  }

  /** The pending schedule becomes active exactly when more than two thirds back the block that
      proposed it; a header may then propose none. */
  lemma NextSchedules(s: State, hd: Header)
    requires Shaped(s) && Next(s, hd).Some?
    ensures var s' := Next(s, hd).value;
            && s'.active == (if MakesActive(s, hd) then s.pending else s.active)
            && s'.pending.producers ==
                 (if MakesActive(s, hd) then [] else if hd.newProducers.Some? then hd.newProducers.value.producers else s.pending.producers)
            && (hd.newProducers.Some? ==> s'.pending == hd.newProducers.value && s'.pendingLib == s'.blockNum)
            && (hd.newProducers.None? ==> s'.pendingLib == s.pendingLib && (!MakesActive(s, hd) ==> s'.pending == s.pending))
  {
    hide LastIrreversible, Confirm, Scheduled, RangeIsNew, Grown, MakesActive, Carried;
    PromotesIff(s, hd);
    DposSafety.GrewParts(s, hd);
  }

  /** The numbers the producers stand for: the producer of the block stands for the proposed block; if
      the schedule changes, producers that had a number keep it, and new ones get the irreversible
      number. */
  lemma NextNumbers(s: State, hd: Header)
    requires Shaped(s) && Next(s, hd).Some?
    ensures var m, s' := s.implied[hd.producer := s.proposed], Next(s, hd).value;
            && (!MakesActive(s, hd) ==> s'.implied == m)
            && (MakesActive(s, hd) ==>
                  && s'.implied.Keys == DposSafety.Names(s.pending.producers)
                  && forall p :: p in s.pending.producers ==> s'.implied[p] == if p in m then m[p] else s'.irreversible)
  {
    hide Next, LastIrreversible, DposSafety.Grew, Shaped, MakesActive, MayPromote;
    PromotesIff(s, hd);
    DposSafety.GrewParts(s, hd);
    DposSafety.NextOfGrew(s, hd);
  }

  // ----- double confirmations -----

  /** A producer of the new schedule of which nothing is known. */
  ghost predicate Joins(s: State, hd: Header, p: Name) {
    MakesActive(s, hd) && p in s.pending.producers && p !in s.lastProduced && p != hd.producer
  }

  /** The irreversible number when a producer last joined the schedule as a new one. */
  ghost function Since(s0: State, hs: seq<Header>, p: Name): nat
    requires Formed(s0)
  {
    if hs == [] then 0
    else
      var n := |hs| - 1;
      var before, after := Run(s0, hs[..n]), Run(s0, hs);
      if before.Some? && after.Some? && Joins(before.value, hs[n], p) then after.value.irreversible else Since(s0, hs[..n], p)
  }

  /** What is known of a producer: its last block, or the irreversible number when it joined. */
  ghost predicate KnowsLast(s: State, h: seq<Block>, since: nat, p: Name) {
    && (p in s.lastProduced ==> s.lastProduced[p] >= since && (s.lastProduced[p] == since || HasBlock(h, p, s.lastProduced[p])))
    && (p in s.active.producers ==> p in s.lastProduced || (h == [] && s.active.producers == [p]))
  }

  ghost predicate HasBlock(h: seq<Block>, p: Name, num: nat) {
    2 <= num < |h| + 2 && h[num - 2].producer == p
  }

  lemma NextRemembers(s: State, h: seq<Block>, hd: Header)
    requires Shaped(s) && Remembered(s, h) && s.blockNum == |h| + 1 && Next(s, hd).Some?
    ensures Remembered(Next(s, hd).value, h + [NewBlock(s, hd)])
  {
    hide LastIrreversible, Scheduled, Remembered, Lowered, LastOne, Grown, RangeIsNew, Confirm, Promoted;
    var h' := h + [NewBlock(s, hd)];
    GeneratedRemembers(s, h, hd);
    GeneratedIsShaped(s, hd.slot);
    ConfirmRemembers(Generated(s, hd.slot), h', hd.confirmed);
    var c := Confirm(Generated(s, hd.slot), hd.confirmed);
    if MayPromote(c) {
      PromotedRemembers(c, h');
    } else if hd.newProducers.Some? {
      ProposingRemembers(c, h', hd.newProducers.value);
    }
  }

  lemma {:induction false} RunRemembers(first: Name, slot: nat, hs: seq<Header>)
    requires Run(Genesis(first, slot), hs).Some?
    ensures Remembered(Run(Genesis(first, slot), hs).value, History(Genesis(first, slot), hs))
    ensures |History(Genesis(first, slot), hs)| == |hs| && Run(Genesis(first, slot), hs).value.blockNum == |hs| + 1
  {
    hide Next, Remembered, Shaped;
    var s0 := Genesis(first, slot);
    RunCounts(s0, hs);
    if hs == [] {
      NothingToRemember(s0);
    } else {
      var n := |hs| - 1;
      RunRemembers(first, slot, hs[..n]);
      RunIsShaped(first, slot, hs[..n]);
      NextRemembers(Run(s0, hs[..n]).value, History(s0, hs[..n]), hs[n]);
    }
  }

  lemma NothingToRemember(s: State)
    ensures Remembered(s, [])
  {
  }

  /** The last block of every producer of which something is known. */
  lemma NextLastProduced(s: State, hd: Header)
    requires Shaped(s) && Next(s, hd).Some?
    ensures var m, s' := s.lastProduced[hd.producer := s.blockNum + 1], Next(s, hd).value;
            && s'.blockNum == s.blockNum + 1 && hd.producer in s'.lastProduced && s'.lastProduced[hd.producer] == s.blockNum + 1
            && (!MakesActive(s, hd) ==> s'.lastProduced == m)
            && (MakesActive(s, hd) ==>
                  && s'.lastProduced.Keys == DposSafety.Names(s.pending.producers) + {hd.producer}
                  && forall p :: p in s'.lastProduced ==> s'.lastProduced[p] == if p in m then m[p] else s'.irreversible)
  {
    hide Next, LastIrreversible, DposSafety.Grew, MakesActive, MayPromote;
    PromotesIff(s, hd);
    DposSafety.GrewParts(s, hd);
    GrewLastProduced(s, hd);
    DposSafety.NextOfGrew(s, hd);
  }

  lemma GrewLastProduced(s: State, hd: Header)
    requires Shaped(s) && Next(s, hd).Some?
    ensures var c := DposSafety.Grew(s, hd);
            c.lastProduced == s.lastProduced[hd.producer := s.blockNum + 1] && c.producer == hd.producer
  {
    hide LastIrreversible, Scheduled, Next, Confirm, Generated;
    NextParts(s, hd);
    GeneratedIsShaped(s, hd.slot);
    GeneratedLast(s, hd.slot);
    ConfirmKeepsLast(Generated(s, hd.slot), hd.confirmed);
  }

  lemma GeneratedLast(s: State, slot: nat)
    requires s.active.producers != []
    ensures var g, p := Generated(s, slot), Scheduled(s.active.producers, slot);
            g.lastProduced == s.lastProduced[p := s.blockNum + 1] && g.producer == p
  {
    hide LastIrreversible, Scheduled, Grown;
  }

  lemma ConfirmKeepsLast(g: State, prev: nat)
    requires |g.counts| <= g.blockNum
    ensures Confirm(g, prev).lastProduced == g.lastProduced && Confirm(g, prev).producer == g.producer
  {
    hide Lowered, LastOne;
  }

  lemma HasBlockMore(h: seq<Block>, b: Block, p: Name, num: nat)
    ensures HasBlock(h, p, num) ==> HasBlock(h + [b], p, num)
    ensures b.producer == p ==> HasBlock(h + [b], p, |h| + 2)
  {
  }

  lemma NextKnowsLast(s: State, h: seq<Block>, since: nat, hd: Header, p: Name)
    requires Shaped(s) && KnowsLast(s, h, since, p) && s.blockNum == |h| + 1 && Next(s, hd).Some? && since <= s.blockNum
    ensures var s' := Next(s, hd).value;
            KnowsLast(s', h + [NewBlock(s, hd)], if Joins(s, hd, p) then s'.irreversible else since, p)
  {
    hide Next, HasBlock, MakesActive;
    var s', h' := Next(s, hd).value, h + [NewBlock(s, hd)];
    NextLastProduced(s, hd);
    NextSchedules(s, hd);
    DposSafety.GrewParts(s, hd);
    if p in s.lastProduced {
      HasBlockMore(h, NewBlock(s, hd), p, s.lastProduced[p]);
    } else {
      HasBlockMore(h, NewBlock(s, hd), p, 0);
    }
  }

  lemma {:induction false} RunKnowsLast(first: Name, slot: nat, hs: seq<Header>, p: Name)
    requires Run(Genesis(first, slot), hs).Some?
    ensures var s0 := Genesis(first, slot);
            KnowsLast(Run(s0, hs).value, History(s0, hs), Since(s0, hs, p), p) && Since(s0, hs, p) <= Run(s0, hs).value.blockNum
  {
    hide Next, KnowsLast, Shaped, Joins;
    var s0 := Genesis(first, slot);
    if hs == [] {
      GenesisKnowsLast(first, slot, p);
    } else {
      var n := |hs| - 1;
      var s := Run(s0, hs[..n]).value;
      RunKnowsLast(first, slot, hs[..n], p);
      RunRemembers(first, slot, hs[..n]);
      RunIsShaped(first, slot, hs[..n]);
      RunIsShaped(first, slot, hs);
      NextKnowsLast(s, History(s0, hs[..n]), Since(s0, hs[..n], p), hs[n], p);
      NextNumber(s, hs[n]);
      LibIsKnown(Run(s0, hs).value);
    }
  }

  lemma LibIsKnown(s: State)
    requires Shaped(s)
    ensures s.irreversible <= s.blockNum
  {
  }

  lemma GenesisKnowsLast(first: Name, slot: nat, p: Name)
    ensures KnowsLast(Genesis(first, slot), [], 0, p)
  {
  }

  // ----- acceptance -----

  /** The producer confirmed no block of the range before, and the range stays above the irreversible
      number at which it joined; or the range reaches below block 0, where 32-bit subtraction wraps
      around. */
  ghost predicate RangeIsFree(s0: State, hs: seq<Header>, hd: Header)
    requires Formed(s0)
  {
    var first := |hs| + 2 - hd.confirmed;
    || first < 0 || hs == []
    || (first > Since(s0, hs, hd.producer) && forall num: nat :: num >= first ==> hd.producer !in Confirmers(History(s0, hs), num))
  }

  lemma RangeIsNewIff(first: Name, slot: nat, hs: seq<Header>, hd: Header)
    requires Run(Genesis(first, slot), hs).Some? && |hs| + 2 < 0x1_0000_0000
    requires hd.producer in Run(Genesis(first, slot), hs).value.active.producers
    ensures RangeIsNew(Run(Genesis(first, slot), hs).value, hd) <==> RangeIsFree(Genesis(first, slot), hs, hd)
  {
    hide Run, History, Confirmers, Remembered;
    var s0 := Genesis(first, slot);
    var s, h, p := Run(s0, hs).value, History(s0, hs), hd.producer;
    var lower := |hs| + 2 - hd.confirmed;
    RunKnowsLast(first, slot, hs, p);
    RunRemembers(first, slot, hs);
    RunIsShaped(first, slot, hs);
    if lower < 0 {
      WrappedRangeIsNew(s, hd);
    } else if hs == [] {
      FirstIsNew(first, slot, hd);
    } else {
      assert UInt32(lower) == lower;
      LastIsConfirmed(s, h, Since(s0, hs, p), p, lower);
    }
  }

  lemma FirstIsNew(first: Name, slot: nat, hd: Header)
    ensures RangeIsNew(Run(Genesis(first, slot), []).value, hd)
  {
  }

  /** The last block of a producer lies below `lower` exactly when it confirmed nothing from there on. */
  lemma LastIsConfirmed(s: State, h: seq<Block>, since: nat, p: Name, lower: nat)
    requires KnowsLast(s, h, since, p) && Remembered(s, h) && p in s.lastProduced
    ensures s.lastProduced[p] < lower <==> lower > since && forall num: nat :: num >= lower ==> p !in Confirmers(h, num)
  {
    if s.lastProduced[p] < lower {
      forall num: nat | num >= lower ensures p !in Confirmers(h, num) {
        forall k: nat | k < |h| && Covers(h, k, num) ensures h[k].producer != p {
          assert RemembersBlock(s, h[k].producer, Number(k));
        }
      }
    } else if lower > since {
      var num := s.lastProduced[p];
      assert HasBlock(h, p, num);
      assert Covers(h, num - 2, num);
      assert p in Confirmers(h, num);
    }
  }

  /** A header is accepted after a chain exactly when its slot is later than the last one, it carries
      the version of the active schedule, it is its producer's turn, its range is free, and it
      proposes a schedule, if at all, with the next version and while none is pending. */
  lemma AcceptedIff(first: Name, slot: nat, hs: seq<Header>, hd: Header)
    requires Run(Genesis(first, slot), hs).Some? && |hs| + 2 < 0x1_0000_0000
    ensures var s := Run(Genesis(first, slot), hs).value;
            Run(Genesis(first, slot), hs + [hd]).Some? <==>
              && hd.slot > LastSlot(slot, hs) && hd.version == s.active.version
              && hd.producer == Schedule.Turn(s.active.producers, hd.slot) && RangeIsFree(Genesis(first, slot), hs, hd)
              && (hd.newProducers.Some? ==> s.pending.producers == [] && hd.newProducers.value.version == s.active.version + 1)
  {
    hide Next, RangeIsNew, RangeIsFree, Schedule.Turn, Scheduled, Run, LastSlot;
    var s0 := Genesis(first, slot);
    var s := Run(s0, hs).value;
    OneMore(s0, hs, hd);
    SlotOfRun(s0, hs);
    Schedule.TurnIsScheduled(s.active.producers, hd.slot);
    ScheduledIsActive(s.active.producers, hd.slot);
    if hd.producer in s.active.producers {
      RangeIsNewIff(first, slot, hs, hd);
    }
    NextIff(s, hd);
  }

  lemma OneMore(s0: State, hs: seq<Header>, hd: Header)
    requires Formed(s0) && Run(s0, hs).Some?
    ensures Run(s0, hs + [hd]) == Next(Run(s0, hs).value, hd)
  {
    hide Next;
    assert (hs + [hd])[..|hs|] == hs;
  }

  lemma NextIff(s: State, hd: Header)
    requires Formed(s)
    ensures Next(s, hd).Some? <==>
              && hd.slot > s.slot && hd.version == s.active.version && Scheduled(s.active.producers, hd.slot) == hd.producer && RangeIsNew(s, hd)
              && (hd.newProducers.Some? ==> s.pending.producers == [] && hd.newProducers.value.version == s.active.version + 1)
  {
    hide LastIrreversible, Lowered, LastOne, Grown, Scheduled, RangeIsNew, Promoted;
  }

  // ----- what is tracked -----

  /** The blocks after the proposed one are tracked, at most the last 1024. */
  ghost predicate Tracks(s: State) {
    var after := if s.proposed == 0 then s.blockNum - 1 else s.blockNum - s.proposed;
    |s.counts| == if after < 1024 then after else 1024
  }

  lemma NextTracks(s: State, hd: Header)
    requires Shaped(s) && Tracks(s) && Next(s, hd).Some?
    ensures Tracks(Next(s, hd).value)
  {
    hide LastIrreversible, Lowered, LastOne, Scheduled, RangeIsNew, Carried;
    GeneratedIsShaped(s, hd.slot);
    ConfirmParts(Generated(s, hd.slot), hd.confirmed);
  }

  lemma {:induction false} RunTracks(first: Name, slot: nat, hs: seq<Header>)
    requires Run(Genesis(first, slot), hs).Some?
    ensures Tracks(Run(Genesis(first, slot), hs).value)
  {
    hide Next, Tracks, Shaped;
    if hs == [] {
      GenesisTracks(first, slot);
    } else {
      var n := |hs| - 1;
      RunTracks(first, slot, hs[..n]);
      RunIsShaped(first, slot, hs[..n]);
      NextTracks(Run(Genesis(first, slot), hs[..n]).value, hs[n]);
    }
  }

  lemma GenesisTracks(first: Name, slot: nat)
    ensures Tracks(Genesis(first, slot))
  {
  }

  /** The proposed block is the latest that more than two thirds confirmed, among the last 1024. */
  lemma ProposedIsLatest(first: Name, slot: nat, hs: seq<Header>, num: nat)
    requires Ordinary(hs) && Run(Genesis(first, slot), hs).Some?
    ensures var s, h := Run(Genesis(first, slot), hs).value, History(Genesis(first, slot), hs);
            && Settled(h, s.proposed)
            && (s.proposed < num <= s.blockNum && num >= 2 && num > s.blockNum - 1024 ==> !Settled(h, num))
  {
    hide Run, History, Next, Ordinary;
    var s, h := Run(Genesis(first, slot), hs).value, History(Genesis(first, slot), hs);
    RunKeepsInv(first, slot, hs);
    RunTracks(first, slot, hs);
    if s.proposed < num <= s.blockNum && num >= 2 && num > s.blockNum - 1024 {
      TrackedIsMissing(s, h, num);
    }
  }

  lemma TrackedIsMissing(s: State, h: seq<Block>, num: nat)
    requires Counted(s, h) && Tracks(s) && s.proposed < num <= s.blockNum && num >= 2 && num > s.blockNum - 1024
    ensures !Settled(h, num)
  {
    hide Confirmers;
    var i := num - (s.blockNum - |s.counts| + 1);
    assert Tracked(s, i) == num;
    assert s.counts[i] >= 1;
  }
}
