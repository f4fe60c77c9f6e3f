/** Two chains that share their first blocks. As long as at most a third of the producers of the
    schedule at the fork, and at most a third of those of a schedule that is pending there, produce on
    both branches, at most one branch ever makes a block after the fork irreversible, however the
    schedule changes later. */
module DposSafety {
  import opened Options
  import opened Dpos

  // ----- one block -----

  ghost function Names(producers: seq<Name>): set<Name> {
    set p | p in producers
  }

  /** The state of a new block before schedules are looked at. */
  ghost function Grew(s: State, hd: Header): State
    requires Formed(s)
  {
    Confirm(Generated(s, hd.slot), hd.confirmed)
  }

  lemma GrewParts(s: State, hd: Header)
    requires Shaped(s) && Next(s, hd).Some?
    ensures Formed(s)
    ensures var c := Grew(s, hd);
            && Shaped(c) && hd.producer in s.active.producers
            && c.active == s.active && c.pending == s.pending && c.pendingLib == s.pendingLib && c.blockNum == s.blockNum + 1
            && c.implied == s.implied[hd.producer := s.proposed] && c.irreversible == LastIrreversible(c.implied)
            && s.proposed <= c.proposed
  {
    hide LastIrreversible, Lowered, LastOne, Grown, Scheduled, RangeIsNew, Promoted;
    ScheduledIsActive(s.active.producers, hd.slot);
    GeneratedIsShaped(s, hd.slot);
    ConfirmIsShaped(Generated(s, hd.slot), hd.confirmed);
    ConfirmParts(Generated(s, hd.slot), hd.confirmed);
  }

  lemma NextOfGrew(s: State, hd: Header)
    requires Formed(s) && Next(s, hd).Some?
    ensures var c, s' := Grew(s, hd), Next(s, hd).value;
            if MayPromote(c) then s' == Promoted(c)
            else s' == c || (c.pending.producers == [] && s' == c.(pending := s'.pending, pendingLib := c.blockNum))
  {
    hide LastIrreversible, Confirm, Scheduled, RangeIsNew, Grown, Promoted, MayPromote;
  }

  // ----- the producers of a schedule back the blocks of a chain -----

  /** Every producer of the schedule has an entry; at the very beginning a single one may lack it. */
  ghost predicate Full(s: State) {
    s.implied.Keys <= Names(s.active.producers) && (|Names(s.active.producers)| == 1 || s.implied.Keys == Names(s.active.producers))
  }

  lemma OnlyMember(s: set<Name>, x: Name, y: Name)
    requires |s| == 1 && x in s && y in s
    ensures x == y
  {
    Within({x, y}, s);
  }

  lemma FullAfter(s: State, x: Name)
    requires Full(s) && x in s.active.producers
    ensures s.implied.Keys + {x} == Names(s.active.producers)
  {
    if |Names(s.active.producers)| == 1 {
      forall y | y in Names(s.active.producers) ensures y == x {
        OnlyMember(Names(s.active.producers), x, y);
      }
    }
  }

  lemma GrewIsFull(s: State, hd: Header)
    requires Shaped(s) && Full(s) && Next(s, hd).Some?
    ensures Grew(s, hd).implied.Keys == Names(s.active.producers)
  {
    hide Next, Grew, Full, LastIrreversible, Shaped;
    GrewParts(s, hd);
    FullAfter(s, hd.producer);
  }

  lemma PromotedKeys(c: State)
    ensures Promoted(c).implied.Keys == Names(c.pending.producers)
  {
  }

  lemma NextIsFull(s: State, hd: Header)
    requires Shaped(s) && Full(s) && Next(s, hd).Some?
    ensures Full(Next(s, hd).value)
  {
    hide Next, Grew, LastIrreversible, Shaped, Promoted, Names, MayPromote;
    GrewParts(s, hd);
    GrewIsFull(s, hd);
    NextOfGrew(s, hd);
    PromotedKeys(Grew(s, hd));
    PromotedActive(Grew(s, hd));
  }

  lemma PromotedActive(c: State)
    ensures Promoted(c).active == c.pending && Promoted(c).pending.producers == [] && Promoted(c).irreversible == c.irreversible
    ensures Promoted(c).blockNum == c.blockNum && Promoted(c).proposed == c.proposed
  {
  }

  lemma {:induction false} RunIsFull(first: Name, slot: nat, hs: seq<Header>)
    requires Run(Genesis(first, slot), hs).Some?
    ensures Full(Run(Genesis(first, slot), hs).value)
  {
    hide Next, Full, Shaped;
    if hs == [] {
      GenesisIsFull(first, slot);
    } else {
      var n := |hs| - 1;
      RunIsFull(first, slot, hs[..n]);
      RunIsShaped(first, slot, hs[..n]);
      NextIsFull(Run(Genesis(first, slot), hs[..n]).value, hs[n]);
    }
  }

  lemma GenesisIsFull(first: Name, slot: nat)
    ensures Full(Genesis(first, slot))
  {
    assert Names([first]) == {first};
  }

  // ----- one branch -----

  ghost predicate Produces(branch: seq<Header>, p: Name) {
    exists i :: 0 <= i < |branch| && branch[i].producer == p
  }

  lemma ProducesOneMore(branch: seq<Header>, hd: Header, p: Name)
    ensures Produces(branch + [hd], p) <==> Produces(branch, p) || p == hd.producer
  {
    var more := branch + [hd];
    if Produces(branch, p) {
      var i :| 0 <= i < |branch| && branch[i].producer == p;
      assert more[i].producer == p;
    }
    assert more[|branch|] == hd;
  }

  /** More than two thirds of a schedule. */
  ghost predicate Strong(c: set<Name>, producers: seq<Name>) {
    c <= Names(producers) && 3 * |c| > 2 * |Names(producers)|
  }

  /** At the fork the producer already backs the block that proposed the pending schedule. */
  ghost predicate Ahead(fork: State, p: Name) {
    p in fork.implied && fork.implied[p] >= fork.pendingLib
  }

  /** More than two thirds of the schedule at the fork made the pending one active: each on this
      branch or before. */
  ghost predicate Endorses(fork: State, branch: seq<Header>, e: set<Name>) {
    Strong(e, fork.active.producers) && forall p :: p in e ==> Produces(branch, p) || Ahead(fork, p)
  }

  ghost predicate Endorsed(fork: State, branch: seq<Header>) {
    exists e :: Endorses(fork, branch, e)
  }

  /** The schedule that is active after the pending one, if any, was promoted. */
  ghost function Later(fork: State): Schedule {
    if fork.pending.producers == [] then fork.active else fork.pending
  }

  /** Blocks after the fork are backed only by producers of the branch. */
  ghost predicate Base(fork: State, s: State, branch: seq<Header>) {
    && Shaped(s) && Full(s) && s.blockNum >= fork.blockNum && s.proposed >= fork.proposed
    && forall p :: p in s.implied && s.implied[p] > fork.blockNum ==> Produces(branch, p)
  }

  /** The pending schedule still waits. */
  ghost predicate Waiting(fork: State, s: State, branch: seq<Header>) {
    && fork.pending.producers != [] && s.active == fork.active && s.pending == fork.pending && s.pendingLib == fork.pendingLib
    && (forall p :: p in s.implied ==> Produces(branch, p) || (p in fork.implied && s.implied[p] == fork.implied[p]))
    && (forall p :: Produces(branch, p) ==> p in s.implied && s.implied[p] >= fork.proposed)
    && (branch != [] ==> Steady(s) && s.irreversible < s.pendingLib)
  }

  /** No schedule waits, or only one that was proposed after the fork. */
  ghost predicate Changed(fork: State, s: State, branch: seq<Header>) {
    && s.active == Later(fork) && (s.pending.producers != [] ==> s.pendingLib > fork.blockNum)
    && (fork.pending.producers != [] ==> Endorsed(fork, branch))
  }

  lemma BaseStep(fork: State, s: State, branch: seq<Header>, hd: Header)
    requires Base(fork, s, branch) && Next(s, hd).Some? && Next(s, hd).value.irreversible <= fork.blockNum
    ensures Base(fork, Next(s, hd).value, branch + [hd])
  {
    hide Next, Grew, LastIrreversible, Produces, Full, MayPromote, Carried;
    var c, s' := Grew(s, hd), Next(s, hd).value;
    GrewParts(s, hd);
    NextOfGrew(s, hd);
    NextIsFull(s, hd);
    NextKeepsShape(s, hd);
    forall p | p in s'.implied && s'.implied[p] > fork.blockNum ensures Produces(branch + [hd], p) {
      ProducesOneMore(branch, hd, p);
      if MayPromote(c) {
        CarriedAt(c.implied, c.pending.producers, c.irreversible, p);
      }
    }
  }

  lemma CarriedAt(m: map<Name, nat>, producers: seq<Name>, default: nat, p: Name)
    requires p in Carried(m, producers, default)
    ensures Carried(m, producers, default)[p] == if p in m then m[p] else default
  {
  }

  lemma WaitingStays(fork: State, s: State, branch: seq<Header>, hd: Header)
    requires Shaped(s) && s.proposed >= fork.proposed && Waiting(fork, s, branch) && Next(s, hd).Some? && !MayPromote(Grew(s, hd))
    ensures Waiting(fork, Next(s, hd).value, branch + [hd])
  {
    hide Next, Grew, LastIrreversible, Produces, Shaped;
    GrewParts(s, hd);
    var s' := Next(s, hd).value;
    NextOfGrew(s, hd);
    forall p ensures Produces(branch + [hd], p) <==> Produces(branch, p) || p == hd.producer {
      ProducesOneMore(branch, hd, p);
    }
  }

  /** The promotion of the pending schedule is backed by more than two thirds. */
  lemma PromotionIsEndorsed(fork: State, s: State, branch: seq<Header>, hd: Header)
    requires Shaped(s) && Full(s) && Waiting(fork, s, branch) && Next(s, hd).Some? && MayPromote(Grew(s, hd))
    ensures Endorsed(fork, branch + [hd])
  {
    hide Next, Grew, LastIrreversible, Produces, Shaped, Full, Steady, Names;
    GrewParts(s, hd);
    var c := Grew(s, hd);
    GrewIsFull(s, hd);
    assert hd.producer in c.implied;
    LastIrreversibleIffBacked(c.implied, fork.pendingLib);
    var e := Backers(c.implied, fork.pendingLib);
    BackersAreStrong(c.implied, fork.pendingLib, fork.active.producers);
    forall p | p in e ensures Produces(branch + [hd], p) || Ahead(fork, p) {
      ProducesOneMore(branch, hd, p);
    }
    assert Endorses(fork, branch + [hd], e);
  }

  lemma BackersAreStrong(m: map<Name, nat>, b: nat, producers: seq<Name>)
    requires Backed(m, b) && m.Keys == Names(producers)
    ensures Strong(Backers(m, b), producers)
  {
    assert |m| == |m.Keys|;
  }

  lemma EndorsedMore(fork: State, branch: seq<Header>, hd: Header)
    requires Endorsed(fork, branch)
    ensures Endorsed(fork, branch + [hd])
  {
    hide Produces, Strong;
    var e :| Endorses(fork, branch, e);
    forall p | p in e ensures Produces(branch + [hd], p) || Ahead(fork, p) {
      ProducesOneMore(branch, hd, p);
    }
    assert Endorses(fork, branch + [hd], e);
  }

  lemma ChangedStays(fork: State, s: State, branch: seq<Header>, hd: Header)
    requires Shaped(s) && s.blockNum >= fork.blockNum && Changed(fork, s, branch)
    requires Next(s, hd).Some? && Next(s, hd).value.irreversible <= fork.blockNum
    ensures Changed(fork, Next(s, hd).value, branch + [hd])
  {
    hide Next, Grew, LastIrreversible, Shaped, Endorsed, Promoted;
    GrewParts(s, hd);
    NextOfGrew(s, hd);
    PromotedActive(Grew(s, hd));
    if fork.pending.producers != [] {
      EndorsedMore(fork, branch, hd);
    }
  }

  lemma WaitingChanges(fork: State, s: State, branch: seq<Header>, hd: Header)
    requires Shaped(s) && Full(s) && Waiting(fork, s, branch) && Next(s, hd).Some? && MayPromote(Grew(s, hd))
    ensures Changed(fork, Next(s, hd).value, branch + [hd])
  {
    hide Next, Grew, LastIrreversible, Shaped, Endorsed, Promoted, Produces, Full, MayPromote;
    GrewParts(s, hd);
    NextOfGrew(s, hd);
    PromotedActive(Grew(s, hd));
    PromotionIsEndorsed(fork, s, branch, hd);
  }

  // ----- the first block after the fork that becomes irreversible -----

  lemma PassIsBacked(fork: State, s: State, branch: seq<Header>, hd: Header) returns (c: set<Name>)
    requires Base(fork, s, branch) && Next(s, hd).Some? && Next(s, hd).value.irreversible > fork.blockNum
    ensures Strong(c, s.active.producers) && forall p :: p in c ==> Produces(branch + [hd], p)
    ensures s.proposed > fork.blockNum
  {
    hide Next, Grew, LastIrreversible, Produces, Full, MayPromote, Carried, Promoted, Names;
    var g := Grew(s, hd);
    GrewParts(s, hd);
    NextOfGrew(s, hd);
    PromotedActive(g);
    GrewIsFull(s, hd);
    assert hd.producer in g.implied;
    LastIrreversibleIffBacked(g.implied, fork.blockNum + 1);
    BackersAreStrong(g.implied, fork.blockNum + 1, s.active.producers);
    c := Backers(g.implied, fork.blockNum + 1);
    forall p | p in c ensures Produces(branch + [hd], p) && s.proposed > fork.blockNum {
      ProducesOneMore(branch, hd, p);
    }
    SomeBacker(c, s.active.producers);
  }

  lemma SomeBacker(c: set<Name>, producers: seq<Name>)
    requires Strong(c, producers)
    ensures exists p :: p in c
  {
    assert c != {};
  }

  /** The blocks of the branch were produced by producers of the schedule at the fork. */
  ghost predicate OnBranch(fork: State, common: seq<Header>, branch: seq<Header>, h: seq<Block>) {
    && |h| == |common| + |branch|
    && forall i :: |common| <= i < |h| ==> BlockOf(fork, branch[i - |common|], h[i])
  }

  ghost predicate BlockOf(fork: State, hd: Header, b: Block) {
    b.size == |fork.active.producers| && b.producer == hd.producer && b.producer in fork.active.producers
  }

  lemma OnBranchOneMore(fork: State, common: seq<Header>, branch: seq<Header>, h: seq<Block>, hd: Header, b: Block)
    requires OnBranch(fork, common, branch, h) && BlockOf(fork, hd, b)
    ensures OnBranch(fork, common, branch + [hd], h + [b])
  {
    hide BlockOf;
    var h', more := h + [b], branch + [hd];
    forall i | |common| <= i < |h'| ensures BlockOf(fork, more[i - |common|], h'[i]) {
      if i < |h| {
        assert BlockOf(fork, branch[i - |common|], h[i]);
      }
    }
  }

  lemma NewBlockIsOf(fork: State, s: State, hd: Header)
    requires Shaped(s) && s.active == fork.active && Next(s, hd).Some?
    ensures BlockOf(fork, hd, NewBlock(s, hd))
  {
    hide Next, Grew, Shaped;
    GrewParts(s, hd);
  }

  lemma ConfirmersAreOnBranch(fork: State, common: seq<Header>, branch: seq<Header>, h: seq<Block>, num: nat)
    requires OnBranch(fork, common, branch, h) && Settled(h, num) && num > |common| + 1
    ensures Strong(Confirmers(h, num), fork.active.producers)
    ensures forall p :: p in Confirmers(h, num) ==> Produces(branch, p)
  {
    assert BlockOf(fork, branch[num - 2 - |common|], h[num - 2]);
    forall p | p in Confirmers(h, num) ensures p in Names(fork.active.producers) && Produces(branch, p) {
      var k: nat :| k < |h| && Covers(h, k, num) && h[k].producer == p;
      assert BlockOf(fork, branch[k - |common|], h[k]);
    }
    NamesAreFew(fork.active.producers);
  }

  lemma {:induction false} NamesAreFew(producers: seq<Name>)
    ensures |Names(producers)| <= |producers|
  {
    if producers != [] {
      var n := |producers| - 1;
      NamesAreFew(producers[..n]);
      assert producers == producers[..n] + [producers[n]];
      assert Names(producers) == Names(producers[..n]) + {producers[n]};
    }
  }

  /** A branch that passes the fork while the pending schedule waits: nobody was ahead at the fork,
      since then the confirmations of the branch would have promoted that schedule before. */
  lemma NoneAhead(fork: State, s: State, common: seq<Header>, branch: seq<Header>, h: seq<Block>, p: Name)
    requires Shaped(fork) && fork.blockNum == |common| + 1 && Base(fork, s, branch) && Waiting(fork, s, branch)
    requires OnBranch(fork, common, branch, h) && Settled(h, s.proposed) && s.proposed > fork.blockNum
    ensures !Ahead(fork, p)
  {
    hide Settled, OnBranch, Produces, LastIrreversible, Names;
    if Ahead(fork, p) {
      ConfirmersAreOnBranch(fork, common, branch, h, s.proposed);
      var c := Confirmers(h, s.proposed);
      SomeProducer(c, fork.active.producers, branch);
      forall q | q in c ensures q in Backers(s.implied, fork.pendingLib) {
      }
      StrongIsBacked(c, s, fork.pendingLib);
      LastIrreversibleIffBacked(s.implied, fork.pendingLib);
    }
  }

  lemma SomeProducer(c: set<Name>, producers: seq<Name>, branch: seq<Header>)
    requires Strong(c, producers) && forall p :: p in c ==> Produces(branch, p)
    ensures branch != []
  {
    SomeBacker(c, producers);
  }

  lemma StrongIsBacked(c: set<Name>, s: State, b: nat)
    requires Strong(c, s.active.producers) && Full(s) && c <= Backers(s.implied, b)
    ensures s.implied != map[] && Backed(s.implied, b)
  {
    SomeBacker(c, s.active.producers);
    var p :| p in c;
    assert p in s.implied;
    Within(c, Backers(s.implied, b));
    Within(s.implied.Keys, Names(s.active.producers));
    assert |s.implied| == |s.implied.Keys|;
  }

  // ----- runs -----

  /** After the first `j` blocks of a branch no block after the fork is irreversible. */
  ghost predicate LowAt(s0: State, common: seq<Header>, branch: seq<Header>, j: nat, num: nat)
    requires Formed(s0) && j <= |branch|
  {
    var r := Run(s0, common + branch[..j]);
    r.Some? && r.value.irreversible <= num
  }

  ghost predicate AllLow(s0: State, common: seq<Header>, branch: seq<Header>, num: nat)
    requires Formed(s0)
  {
    forall j :: 0 <= j <= |branch| ==> LowAt(s0, common, branch, j, num)
  }

  ghost predicate Calm(fork: State, common: seq<Header>, s: State, branch: seq<Header>, h: seq<Block>) {
    && Base(fork, s, branch)
    && ((Waiting(fork, s, branch) && OnBranch(fork, common, branch, h)) || Changed(fork, s, branch))
  }

  lemma CalmAtFork(fork: State, common: seq<Header>, h: seq<Block>)
    requires Shaped(fork) && Full(fork) && |h| == |common|
    ensures Calm(fork, common, fork, [], h)
  {
    hide Full, Steady;
  }

  lemma StaysCalm(fork: State, common: seq<Header>, s: State, branch: seq<Header>, h: seq<Block>, hd: Header)
    requires Calm(fork, common, s, branch, h) && Next(s, hd).Some? && Next(s, hd).value.irreversible <= fork.blockNum
    ensures Calm(fork, common, Next(s, hd).value, branch + [hd], h + [NewBlock(s, hd)])
  {
    hide Next, Grew, Waiting, Changed, OnBranch, Shaped, Full, Produces;
    BaseStep(fork, s, branch, hd);
    GrewParts(s, hd);
    if Changed(fork, s, branch) {
      ChangedStays(fork, s, branch, hd);
    } else if MayPromote(Grew(s, hd)) {
      WaitingChanges(fork, s, branch, hd);
    } else {
      WaitingStays(fork, s, branch, hd);
      WaitingSchedule(fork, s, branch);
      NewBlockIsOf(fork, s, hd);
      OnBranchOneMore(fork, common, branch, h, hd, NewBlock(s, hd));
    }
  }

  lemma WaitingSchedule(fork: State, s: State, branch: seq<Header>)
    requires Waiting(fork, s, branch)
    ensures s.active == fork.active && fork.pending.producers != []
  {
  }

  lemma RunOneMore(s0: State, common: seq<Header>, branch: seq<Header>)
    requires Formed(s0) && branch != [] && Run(s0, common + branch).Some?
    ensures Run(s0, common + branch[..|branch| - 1]).Some?
    ensures Run(s0, common + branch) == Next(Run(s0, common + branch[..|branch| - 1]).value, branch[|branch| - 1])
    ensures History(s0, common + branch) ==
              History(s0, common + branch[..|branch| - 1]) +
              [NewBlock(Run(s0, common + branch[..|branch| - 1]).value, branch[|branch| - 1])]
  {
    hide Next, Formed;
    assert (common + branch)[..|common + branch| - 1] == common + branch[..|branch| - 1];
  }

  lemma PrefixIsLow(s0: State, common: seq<Header>, branch: seq<Header>, num: nat)
    requires Formed(s0) && branch != [] && AllLow(s0, common, branch, num)
    ensures AllLow(s0, common, branch[..|branch| - 1], num)
  {
    hide Run;
    var n := |branch| - 1;
    forall j | 0 <= j <= n ensures LowAt(s0, common, branch[..n], j, num) {
      assert branch[..n][..j] == branch[..j];
      assert LowAt(s0, common, branch, j, num);
    }
  }

  lemma {:induction false} LowIsCalm(s0: State, common: seq<Header>, branch: seq<Header>, fork: State)
    requires Formed(s0) && Run(s0, common) == Some(fork) && Shaped(fork) && Full(fork)
    requires |History(s0, common)| == |common| && AllLow(s0, common, branch, fork.blockNum)
    ensures Run(s0, common + branch).Some?
    ensures Calm(fork, common, Run(s0, common + branch).value, branch, History(s0, common + branch))
  {
    hide Next, Run, History, Calm, Shaped, Full, Formed;
    assert branch[..|branch|] == branch;
    assert LowAt(s0, common, branch, |branch|, fork.blockNum);
    if branch == [] {
      assert common + branch == common;
      CalmAtFork(fork, common, History(s0, common));
    } else {
      var n := |branch| - 1;
      PrefixIsLow(s0, common, branch, fork.blockNum);
      LowIsCalm(s0, common, branch[..n], fork);
      RunOneMore(s0, common, branch);
      StaysCalm(fork, common, Run(s0, common + branch[..n]).value, branch[..n], History(s0, common + branch[..n]), branch[n]);
      assert branch[..n] + [branch[n]] == branch;
    }
  }

  // ----- who stands behind a branch -----

  /** More than two thirds of the schedule produced on the branch. */
  ghost predicate Backs(branch: seq<Header>, producers: seq<Name>, c: set<Name>) {
    Strong(c, producers) && forall p :: p in c ==> Produces(branch, p)
  }

  ghost predicate IsBacked(branch: seq<Header>, producers: seq<Name>) {
    exists c :: Backs(branch, producers, c)
  }

  /** The branch passed the fork under the schedule at the fork, or under the one that was pending. */
  ghost predicate Passed(fork: State, branch: seq<Header>) {
    || (IsBacked(branch, fork.active.producers) && (fork.pending.producers != [] ==> forall p :: !Ahead(fork, p)))
    || (fork.pending.producers != [] && IsBacked(branch, fork.pending.producers) && Endorsed(fork, branch))
  }

  lemma {:induction false} ProducesPrefix(branch: seq<Header>, j: nat, p: Name)
    requires j <= |branch| && Produces(branch[..j], p)
    ensures Produces(branch, p)
  {
    var i :| 0 <= i < |branch[..j]| && branch[..j][i].producer == p;
    assert branch[i].producer == p;
  }

  lemma BackedPrefix(branch: seq<Header>, j: nat, producers: seq<Name>)
    requires j <= |branch| && IsBacked(branch[..j], producers)
    ensures IsBacked(branch, producers)
  {
    hide Produces, Strong;
    var c :| Backs(branch[..j], producers, c);
    forall p | p in c ensures Produces(branch, p) {
      ProducesPrefix(branch, j, p);
    }
    assert Backs(branch, producers, c);
  }

  lemma EndorsedPrefix(fork: State, branch: seq<Header>, j: nat)
    requires j <= |branch| && Endorsed(fork, branch[..j])
    ensures Endorsed(fork, branch)
  {
    hide Produces, Strong;
    var e :| Endorses(fork, branch[..j], e);
    forall p | p in e ensures Produces(branch, p) || Ahead(fork, p) {
      if Produces(branch[..j], p) {
        ProducesPrefix(branch, j, p);
      }
    }
    assert Endorses(fork, branch, e);
  }

  lemma PassedPrefix(fork: State, branch: seq<Header>, j: nat)
    requires j <= |branch| && Passed(fork, branch[..j])
    ensures Passed(fork, branch)
  {
    hide IsBacked, Endorsed, Ahead;
    if IsBacked(branch[..j], fork.active.producers) {
      BackedPrefix(branch, j, fork.active.producers);
    }
    if fork.pending.producers != [] && IsBacked(branch[..j], fork.pending.producers) && Endorsed(fork, branch[..j]) {
      BackedPrefix(branch, j, fork.pending.producers);
      EndorsedPrefix(fork, branch, j);
    }
  }

  /** The block that passes the fork. */
  lemma PassingBlock(fork: State, s: State, common: seq<Header>, branch: seq<Header>, h: seq<Block>, hd: Header)
    requires Shaped(fork) && fork.blockNum == |common| + 1 && Calm(fork, common, s, branch, h) && Next(s, hd).Some?
    requires Next(s, hd).value.irreversible > fork.blockNum && (fork.pending.producers != [] ==> Settled(h, s.proposed))
    ensures Passed(fork, branch + [hd])
  {
    hide Next, Grew, Waiting, Settled, OnBranch, Shaped, Full, Produces, Endorsed, Ahead, Strong;
    GrewParts(s, hd);
    var c := PassIsBacked(fork, s, branch, hd);
    assert Backs(branch + [hd], s.active.producers, c);
    if Changed(fork, s, branch) {
      if fork.pending.producers != [] {
        EndorsedMore(fork, branch, hd);
      }
    } else {
      WaitingSchedule(fork, s, branch);
      forall p ensures !Ahead(fork, p) {
        NoneAhead(fork, s, common, branch, h, p);
      }
    }
  }

  lemma OrdinaryPrefix(hs: seq<Header>, k: nat)
    requires Ordinary(hs) && k <= |hs|
    ensures Ordinary(hs[..k])
  {
    hide Fits;
    forall i | 0 <= i < k ensures OrdinaryAt(hs[..k], i) {
      assert OrdinaryAt(hs, i);
    }
  }

  lemma {:induction false} RunOfPrefix(s0: State, hs: seq<Header>, k: nat)
    requires Formed(s0) && Run(s0, hs).Some? && k <= |hs|
    ensures Run(s0, hs[..k]).Some?
  {
    hide Next, Formed;
    if k == |hs| {
      assert hs[..k] == hs;
    } else {
      var n := |hs| - 1;
      assert hs[..n][..k] == hs[..k];
      RunOfPrefix(s0, hs[..n], k);
    }
  }

  lemma BranchPrefix(common: seq<Header>, branch: seq<Header>, j: nat)
    requires j <= |branch|
    ensures (common + branch)[..|common| + j] == common + branch[..j] && (common + branch)[..|common|] == common
  {
  }

  lemma ForkParts(first: Name, slot: nat, common: seq<Header>, fork: State)
    requires Run(Genesis(first, slot), common) == Some(fork)
    ensures Shaped(fork) && Full(fork) && fork.irreversible <= fork.blockNum == |common| + 1
    ensures |History(Genesis(first, slot), common)| == |common|
  {
    hide Next, Run, History, Full;
    RunIsShaped(first, slot, common);
    RunIsFull(first, slot, common);
    RunCounts(Genesis(first, slot), common);
    HistoryOf(Genesis(first, slot), common);
  }

  /** A branch that makes a block after the fork irreversible is backed. */
  lemma {:induction false} PassedIsBacked(first: Name, slot: nat, common: seq<Header>, branch: seq<Header>, fork: State)
    requires Run(Genesis(first, slot), common) == Some(fork) && Run(Genesis(first, slot), common + branch).Some?
    requires Run(Genesis(first, slot), common + branch).value.irreversible > fork.blockNum
    requires fork.pending.producers != [] ==> Ordinary(common + branch)
    ensures Passed(fork, branch)
    decreases |branch|
  {
    hide Next, Run, History, Ordinary, Shaped, Full, Calm, Passed, Settled;
    var s0 := Genesis(first, slot);
    var num := fork.blockNum;
    ForkParts(first, slot, common, fork);
    if j :| 0 <= j < |branch| && !LowAt(s0, common, branch, j, num) {
      BranchPrefix(common, branch, j);
      RunOfPrefix(s0, common + branch, |common| + j);
      if fork.pending.producers != [] {
        OrdinaryPrefix(common + branch, |common| + j);
      }
      PassedIsBacked(first, slot, common, branch[..j], fork);
      PassedPrefix(fork, branch, j);
    } else {
      var joined := common + branch;
      assert branch == [] ==> joined == common;
      var n := |branch| - 1;
      var before := branch[..n];
      forall j | 0 <= j <= |before| ensures LowAt(s0, common, before, j, num) {
        assert before[..j] == branch[..j];
        assert LowAt(s0, common, branch, j, num);
      }
      LowIsCalm(s0, common, before, fork);
      RunOneMore(s0, common, branch);
      if fork.pending.producers != [] {
        BranchPrefix(common, branch, n);
        OrdinaryPrefix(common + branch, |common| + n);
        IrreversibleBlocksAreConfirmed(first, slot, common + before);
      }
      PassingBlock(fork, Run(s0, common + before).value, common, before, History(s0, common + before), branch[n]);
      assert before + [branch[n]] == branch;
    }
  }

  // ----- two branches -----

  /** The producers of a schedule that produce on both branches. */
  ghost function OnBoth(producers: seq<Name>, left: seq<Header>, right: seq<Header>): set<Name> {
    set p | p in producers && Produces(left, p) && Produces(right, p)
  }

  /** Two branches backed by one schedule share more than a third of it. */
  lemma BackedOverlap(left: seq<Header>, right: seq<Header>, producers: seq<Name>)
    requires IsBacked(left, producers) && IsBacked(right, producers)
    ensures 3 * |OnBoth(producers, left, right)| > |Names(producers)|
  {
    hide Produces;
    var c :| Backs(left, producers, c);
    var d :| Backs(right, producers, d);
    assert |c + d| == |c| + |d| - |c * d|;
    Within(c + d, Names(producers));
    Within(c * d, OnBoth(producers, left, right));
  }

  /** Where nobody was ahead at the fork, the promotion of the pending schedule was backed on the
      branch itself. */
  lemma EndorsedIsBacked(fork: State, branch: seq<Header>)
    requires Endorsed(fork, branch) && forall p :: !Ahead(fork, p)
    ensures IsBacked(branch, fork.active.producers)
  {
    hide Produces, Strong, Ahead;
    var e :| Endorses(fork, branch, e);
    assert Backs(branch, fork.active.producers, e);
  }

  lemma PassedOverlap(fork: State, left: seq<Header>, right: seq<Header>)
    requires Passed(fork, left) && Passed(fork, right)
    ensures || 3 * |OnBoth(fork.active.producers, left, right)| > |Names(fork.active.producers)|
            || (fork.pending.producers != [] && 3 * |OnBoth(fork.pending.producers, left, right)| > |Names(fork.pending.producers)|)
  {
    hide IsBacked, Endorsed, Ahead, Names, OnBoth;
    var active, pending := fork.active.producers, fork.pending.producers;
    if pending != [] && IsBacked(left, pending) && IsBacked(right, pending) {
      BackedOverlap(left, right, pending);
    } else {
      if pending != [] && (forall p :: !Ahead(fork, p)) {
        if Endorsed(fork, left) {
          EndorsedIsBacked(fork, left);
        }
        if Endorsed(fork, right) {
          EndorsedIsBacked(fork, right);
        }
      }
      BackedOverlap(left, right, active);
    }
  }

  /** If at most a third of the producers of the schedule at the fork, and of one pending there,
      produce on both branches, at most one branch makes a block after the fork irreversible. Where no
      schedule is pending this holds of all accepted branches, whatever their blocks claim to
      confirm. */
  lemma AtMostOneBranchAdvances(first: Name, slot: nat, common: seq<Header>, left: seq<Header>, right: seq<Header>, fork: State)
    requires var s0 := Genesis(first, slot);
             Run(s0, common) == Some(fork) && Run(s0, common + left).Some? && Run(s0, common + right).Some?
    requires 3 * |OnBoth(fork.active.producers, left, right)| <= |Names(fork.active.producers)|
    requires 3 * |OnBoth(fork.pending.producers, left, right)| <= |Names(fork.pending.producers)|
    requires fork.pending.producers != [] ==> Ordinary(common + left) && Ordinary(common + right)
    ensures var s0 := Genesis(first, slot);
            || Run(s0, common + left).value.irreversible <= fork.blockNum
            || Run(s0, common + right).value.irreversible <= fork.blockNum
  {
    hide Run, Next, Ordinary, Passed, OnBoth, Names;
    var s0 := Genesis(first, slot);
    if Run(s0, common + left).value.irreversible > fork.blockNum && Run(s0, common + right).value.irreversible > fork.blockNum {
      PassedIsBacked(first, slot, common, left, fork);
      PassedIsBacked(first, slot, common, right, fork);
      PassedOverlap(fork, left, right);
    }
  }
}
