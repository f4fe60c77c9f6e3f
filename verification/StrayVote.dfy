/** A run in which a suppressed change of weight leaves a proxy with a negative weight, so that its
    vote is recorded without a look at the producers it names; a later vote then fails because
    one of them has no row. */
module StrayVote {
  import opened Options
  import opened Sums
  import opened Voting
  import opened VotingRuns
  import opened VotingForm

  const BEFORE := 10.0
  const AFTER := 10.9

  /** The tables of the run: voters 3, 4 and 5, and no producer. */
  function Three(x3: Voter, x4: Voter, x5: Voter, activated: int): State {
    State(map[3 := x3, 4 := x4, 5 := x5], map[], 0.0, activated)
  }

  lemma SetOne(x3: Voter, x4: Voter, x5: Voter, n: int, y: Voter)
    ensures var s := Three(x3, x4, x5, n);
            && s.(voters := s.voters[3 := y]) == Three(y, x4, x5, n)
            && s.(voters := s.voters[4 := y]) == Three(x3, y, x5, n)
            && s.(voters := s.voters[5 := y]) == Three(x3, x4, y, n)
  {
  }

  /** A change that reaches a voter without producers goes no further. */
  lemma PassOnStops(s: State, q: Name, f: real)
    requires s.producers == map[] && q in s.voters && s.voters[q].producers == []
    requires s.voters[q].proxy == NOBODY || (!s.voters[q].isProxy && Negligible(Weight(s.voters[q], f) - s.voters[q].last))
    ensures PassOn(s, q, f) == Some(SetLast(s, q, Weight(s.voters[q], f)))
  {
    hide Weight;
    var d := Weight(s.voters[q], f) - s.voters[q].last;
    if !Negligible(d) {
      assert AddVotes(s.producers, [], d) == map[];
      assert d * 0.0 == 0.0;
      assert ChangeListed(s, q, d) == s;
    }
  }

  lemma NoDeltas(a: real, list: seq<Name>, w: real)
    requires |list| <= 1
    ensures ApplyDeltas(map[], [], a, list, w) == map[] && WeightDelta(map[], [], a, list, w) == 0.0
  {
    assert list == [] || list[..0] == [];
    assert Found(list, map[]) == 0;
  }

  /** A vote cast in these tables changes the voter's own row only. */
  lemma CastIsQuiet(s: State, v: Name, a: real, w: real, proxy: Name, list: seq<Name>)
    requires s.producers == map[] && v in s.voters && |list| <= 1
    ensures CastVote(s, v, a, [], w, proxy, list) ==
              s.(voters := s.voters[v := s.voters[v].(last := w, producers := list, proxy := proxy)])
  {
    NoDeltas(a, if proxy == NOBODY && w >= 0.0 then list else [], w);
  }

  // ----- the voters along the run -----

  const PROXY4 := NEW_VOTER.(isProxy := true)
  const PROXY3 := Voter(NOBODY, [], 1, 0.0, 0.0, true)
  const VOTER5 := NEW_VOTER.(staked := 1)

  lemma FourSteps()
    ensures var s1 := Step(EMPTY, RegisterProxy(4, true), BEFORE);
            var s2 := Step(s1, RegisterProxy(3, true), BEFORE);
            var s3 := Step(s2, Stake(3, 1), BEFORE);
            Step(s3, Stake(5, 1), BEFORE) == Three(PROXY3, PROXY4, VOTER5, 0)
  {
    var s1 := State(map[4 := PROXY4], map[], 0.0, 0);
    assert Step(EMPTY, RegisterProxy(4, true), BEFORE) == s1;
    var s2 := State(map[4 := PROXY4, 3 := NEW_VOTER.(isProxy := true)], map[], 0.0, 0);
    assert Step(s1, RegisterProxy(3, true), BEFORE) == s2;
    var s3 := State(map[4 := PROXY4, 3 := PROXY3], map[], 0.0, 0);
    assert Step(s2, Stake(3, 1), BEFORE) == s3;
  }

  /** Voter 5 delegates to 3. */
  lemma FifthStep()
    ensures Step(Three(PROXY3, PROXY4, VOTER5, 0), Vote(5, 3, []), BEFORE) ==
              Three(PROXY3.(last := 20.0, proxied := 10.0), PROXY4, Voter(3, [], 1, 10.0, 0.0, false), 1)
  {
    hide PassOn, CastVote;
    var s0 := Three(PROXY3, PROXY4, VOTER5, 1);
    assert VoteIsFormed(Three(PROXY3, PROXY4, VOTER5, 0), 5, 3, []);
    assert Weight(VOTER5, BEFORE) == 10.0;
    var y := PROXY3.(proxied := 10.0);
    SetOne(PROXY3, PROXY4, VOTER5, 1, y);
    var s1 := Three(y, PROXY4, VOTER5, 1);
    assert ChangeProxied(s0, 3, 10.0) == s1;
    PassOnStops(s1, 3, BEFORE);
    SetOne(y, PROXY4, VOTER5, 1, y.(last := 20.0));
    var s2 := Three(y.(last := 20.0), PROXY4, VOTER5, 1);
    assert JoinProxy(s0, 3, 10.0, true, BEFORE) == Some(s2);
    CastIsQuiet(s2, 5, 0.0, 10.0, 3, []);
    SetOne(y.(last := 20.0), PROXY4, VOTER5, 1, Voter(3, [], 1, 10.0, 0.0, false));
  }

  const DELEGATOR5 := Voter(3, [], 1, 10.0, 0.0, false)

  /** 3 is no proxy any more. */
  lemma SixthStep()
    ensures Step(Three(PROXY3.(last := 20.0, proxied := 10.0), PROXY4, DELEGATOR5, 1), RegisterProxy(3, false), BEFORE) ==
              Three(Voter(NOBODY, [], 1, 10.0, 10.0, false), PROXY4, DELEGATOR5, 1)
  {
    hide PassOn;
    var x := PROXY3.(last := 20.0, proxied := 10.0);
    var y := Voter(NOBODY, [], 1, 20.0, 10.0, false);
    SetOne(x, PROXY4, DELEGATOR5, 1, y);
    PassOnStops(Three(y, PROXY4, DELEGATOR5, 1), 3, BEFORE);
    SetOne(y, PROXY4, DELEGATOR5, 1, y.(last := 10.0));
  }

  /** 3 delegates to 4. */
  lemma SeventhStep()
    ensures Step(Three(Voter(NOBODY, [], 1, 10.0, 10.0, false), PROXY4, DELEGATOR5, 1), Vote(3, 4, []), BEFORE) ==
              Three(Voter(4, [], 1, 10.0, 10.0, false), PROXY4.(last := 10.0, proxied := 10.0), DELEGATOR5, 1)
  {
    hide PassOn, CastVote;
    var x := Voter(NOBODY, [], 1, 10.0, 10.0, false);
    var s0 := Three(x, PROXY4, DELEGATOR5, 1);
    assert VoteIsFormed(s0, 3, 4, []);
    assert Weight(x, BEFORE) == 10.0;
    var y := PROXY4.(proxied := 10.0);
    SetOne(x, PROXY4, DELEGATOR5, 1, y);
    var s1 := Three(x, y, DELEGATOR5, 1);
    assert ChangeProxied(s0, 4, 10.0) == s1;
    PassOnStops(s1, 4, BEFORE);
    SetOne(x, y, DELEGATOR5, 1, y.(last := 10.0));
    var s2 := Three(x, y.(last := 10.0), DELEGATOR5, 1);
    assert JoinProxy(s0, 4, 10.0, true, BEFORE) == Some(s2);
    CastIsQuiet(s2, 3, 10.0, 10.0, 4, []);
    SetOne(x, y.(last := 10.0), DELEGATOR5, 1, Voter(4, [], 1, 10.0, 10.0, false));
  }

  const FREE5 := Voter(NOBODY, [], 1, 10.9, 0.0, false)

  /** Under a new factor 5 leaves 3, whose own weight rises by less than one: 4 is not told. */
  lemma EighthStep()
    ensures Step(Three(Voter(4, [], 1, 10.0, 10.0, false), PROXY4.(last := 10.0, proxied := 10.0), DELEGATOR5, 1), Vote(5, NOBODY, []), AFTER) ==
              Three(Voter(4, [], 1, 10.9, 0.0, false), PROXY4.(last := 10.0, proxied := 10.0), FREE5, 1)
  {
    hide PassOn, CastVote;
    var x := Voter(4, [], 1, 10.0, 10.0, false);
    var p := PROXY4.(last := 10.0, proxied := 10.0);
    var s0 := Three(x, p, DELEGATOR5, 1);
    assert VoteIsFormed(s0, 5, NOBODY, []);
    assert Weight(DELEGATOR5, AFTER) == 10.9;
    var y := x.(proxied := 0.0);
    SetOne(x, p, DELEGATOR5, 1, y);
    var s1 := Three(y, p, DELEGATOR5, 1);
    assert ChangeProxied(s0, 3, -10.0) == s1;
    assert Weight(y, AFTER) == 10.9;
    PassOnStops(s1, 3, AFTER);
    SetOne(y, p, DELEGATOR5, 1, y.(last := 10.9));
    var s2 := Three(y.(last := 10.9), p, DELEGATOR5, 1);
    assert LeaveProxy(s0, 5, AFTER) == Some(s2);
    CastIsQuiet(s2, 5, 10.0, 10.9, NOBODY, []);
    SetOne(y.(last := 10.9), p, DELEGATOR5, 1, FREE5);
  }

  /** 3 leaves 4 with more than it brought. */
  lemma NinthStep()
    ensures Step(Three(Voter(4, [], 1, 10.9, 0.0, false), PROXY4.(last := 10.0, proxied := 10.0), FREE5, 1), Vote(3, NOBODY, []), AFTER) ==
              Three(Voter(NOBODY, [], 1, 10.9, 0.0, false), PROXY4.(last := -0.9, proxied := -0.9), FREE5, 1)
  {
    hide PassOn, CastVote;
    var x := Voter(4, [], 1, 10.9, 0.0, false);
    var p := PROXY4.(last := 10.0, proxied := 10.0);
    var s0 := Three(x, p, FREE5, 1);
    assert VoteIsFormed(s0, 3, NOBODY, []);
    assert Weight(x, AFTER) == 10.9;
    var y := p.(proxied := -0.9);
    SetOne(x, p, FREE5, 1, y);
    var s1 := Three(x, y, FREE5, 1);
    assert ChangeProxied(s0, 4, -10.9) == s1;
    assert Weight(y, AFTER) == -0.9;
    PassOnStops(s1, 4, AFTER);
    SetOne(x, y, FREE5, 1, y.(last := -0.9));
    var s2 := Three(x, y.(last := -0.9), FREE5, 1);
    assert LeaveProxy(s0, 3, AFTER) == Some(s2);
    CastIsQuiet(s2, 3, 10.9, 10.9, NOBODY, []);
    SetOne(x, y.(last := -0.9), FREE5, 1, x.(proxy := NOBODY));
  }

  const STRAY4 := Voter(NOBODY, [77], 0, -0.9, -0.9, true)
  const FREE3 := Voter(NOBODY, [], 1, 10.9, 0.0, false)

  /** The weight of 4 is negative, and its vote for a producer without a row is recorded. */
  lemma TenthStep()
    ensures var s := Three(FREE3, PROXY4.(last := -0.9, proxied := -0.9), FREE5, 1);
            && Step(s, Vote(4, NOBODY, [77]), AFTER) == Three(FREE3, STRAY4, FREE5, 1)
            && Stray(s, Vote(4, NOBODY, [77]), AFTER)
  {
    hide CastVote;
    var p := PROXY4.(last := -0.9, proxied := -0.9);
    var s := Three(FREE3, p, FREE5, 1);
    assert VoteIsFormed(s, 4, NOBODY, [77]);
    assert Weight(p, AFTER) == -0.9;
    CastIsQuiet(s, 4, -0.9, -0.9, NOBODY, [77]);
    SetOne(FREE3, p, FREE5, 1, STRAY4);
    assert s.(activated := s.activated + p.staked) == s;
    assert 77 in [77];
  }

  /** The next change that reaches 4 fails. */
  lemma EleventhStepFails()
    ensures VoteProducer(Three(FREE3, STRAY4, FREE5, 1), 5, 4, [], AFTER) == None
  {
    var s := Three(FREE3, STRAY4, FREE5, 1);
    assert VoteIsFormed(s, 5, 4, []);
    assert Weight(FREE5, AFTER) == 10.9;
    var y := STRAY4.(proxied := 10.0);
    SetOne(FREE3, STRAY4, FREE5, 1, y);
    var s1 := Three(FREE3, y, FREE5, 1);
    assert ChangeProxied(s, 4, 10.9) == s1;
    assert Weight(y, AFTER) == 10.0;
    assert 77 in y.producers && 77 !in s1.producers;
    assert !Passable(s1, 4, AFTER, {4});
    assert LeaveProxy(s, 5, AFTER) == Some(s);
  }

  const STRAY_RUN: seq<(Action, real)> :=
    [(RegisterProxy(4, true), BEFORE), (RegisterProxy(3, true), BEFORE), (Stake(3, 1), BEFORE), (Stake(5, 1), BEFORE),
     (Vote(5, 3, []), BEFORE), (RegisterProxy(3, false), BEFORE), (Vote(3, 4, []), BEFORE),
     (Vote(5, NOBODY, []), AFTER), (Vote(3, NOBODY, []), AFTER), (Vote(4, NOBODY, [77]), AFTER)]

  lemma RunOneMore(actions: seq<(Action, real)>, k: nat, s: State)
    requires k < |actions| && Run(EMPTY, actions[..k]) == s
    ensures Run(EMPTY, actions[..k + 1]) == Step(s, actions[k].0, actions[k].1)
  {
    hide Step;
    assert actions[..k + 1][..k] == actions[..k];
  }

  /** After this run a voter lists a producer that does not exist, and a vote that is in order is
      refused on that account. */
  lemma VoteMayBeStray()
    ensures var s := Run(EMPTY, STRAY_RUN);
            && 4 in s.voters && 77 in s.voters[4].producers && 77 !in s.producers && !ListsKnown(s)
            && VoteProducer(s, 5, 4, [], AFTER) == None
  {
    hide Step, Stray, Form;
    var all := STRAY_RUN;
    assert all[..0] == [];
    RunOneMore(all, 0, EMPTY);
    RunOneMore(all, 1, Run(EMPTY, all[..1]));
    RunOneMore(all, 2, Run(EMPTY, all[..2]));
    RunOneMore(all, 3, Run(EMPTY, all[..3]));
    FourSteps();
    RunOneMore(all, 4, Three(PROXY3, PROXY4, VOTER5, 0));
    FifthStep();
    RunOneMore(all, 5, Run(EMPTY, all[..5]));
    SixthStep();
    RunOneMore(all, 6, Run(EMPTY, all[..6]));
    SeventhStep();
    RunOneMore(all, 7, Run(EMPTY, all[..7]));
    EighthStep();
    RunOneMore(all, 8, Run(EMPTY, all[..8]));
    NinthStep();
    RunOneMore(all, 9, Run(EMPTY, all[..9]));
    TenthStep();
    EleventhStepFails();
    assert all[..10] == all;
    assert 77 in STRAY4.producers;
  }
}
