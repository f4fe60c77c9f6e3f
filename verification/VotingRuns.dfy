/** Whole runs of voting actions. While the factor from stake to weight stays the same, every
    producer's running total is the sum one would compute from the stakes alone; this holds for
    all runs exactly when the factor is greater than one, because changes of weight of at most
    one are not passed on. */
module VotingRuns {
  import opened Options
  import opened Sums
  import opened Voting

  datatype Action =
    | RegisterProducer(producer: Name)
    | UnregisterProducer(producer: Name)
    | RegisterProxy(account: Name, flag: bool)
    | Vote(voter: Name, proxy: Name, list: seq<Name>)
    | Stake(voter: Name, delta: int)

  /** An action either takes effect as a whole or fails and changes nothing. */
  function Step(s: State, a: Action, f: real): State {
    match a
    case RegisterProducer(p) => RegProducer(s, p)
    case UnregisterProducer(p) => OrElse(UnregProd(s, p), s)
    case RegisterProxy(p, flag) => OrElse(RegProxy(s, p, flag, f), s)
    case Vote(v, proxy, list) => OrElse(VoteProducer(s, v, proxy, list, f), s)
    case Stake(v, delta) => OrElse(ChangeStake(s, v, delta, f), s)
  }

  function OrElse(o: Option<State>, s: State): State {
    if o.Some? then o.value else s
  }

  /** Each action comes with the factor at its time. */
  function Run(s: State, actions: seq<(Action, real)>): State {
    if actions == [] then s
    else
      var before := Run(s, actions[..|actions| - 1]);
      var (a, f) := actions[|actions| - 1];
      Step(before, a, f)
  }

  const EMPTY := State(map[], map[], 0.0, 0)

  // ----- any factors -----

  ghost predicate StepSuppressed(s: State, a: Action, f: real) {
    match a
    case RegisterProducer(p) => false
    case UnregisterProducer(p) => false
    case RegisterProxy(p, flag) => RegProxySuppressed(s, p, flag, f)
    case Vote(v, proxy, list) =>
      v in s.voters && UpdateSuppressed(Activating(s, v), v, proxy, f)
    case Stake(v, delta) => ChangeStakeSuppressed(s, v, delta, f)
  }

  function Activating(s: State, v: Name): State
    requires v in s.voters
  {
    if s.voters[v].last <= 0.0 then s.(activated := s.activated + s.voters[v].staked) else s
  }

  lemma StepKeepsSound(s: State, a: Action, f: real)
    requires Sound(s) && f >= 0.0 && !StepSuppressed(s, a, f)
    ensures Sound(Step(s, a, f))
  {
    hide Sound, RegProducer, UnregProd, RegProxy, ChangeStake, ChangeStakeSuppressed, RegProxySuppressed, UpdateSuppressed;
    match a
    case RegisterProducer(p) => RegProducerKeepsSound(s, p);
    case UnregisterProducer(p) =>
      if UnregProd(s, p).Some? {
        UnregProdKeepsSound(s, p);
      }
    case RegisterProxy(p, flag) =>
      if RegProxy(s, p, flag, f).Some? {
        RegProxyKeepsSound(s, p, flag, f);
      }
    case Vote(v, proxy, list) =>
      if VoteProducer(s, v, proxy, list, f).Some? {
        VoterIsKnown(s, v, proxy, list, f);
        UpdateVotesKeepsSound(s, v, proxy, list, true, f);
      }
    case Stake(v, delta) =>
      if ChangeStake(s, v, delta, f).Some? {
        ChangeStakeKeepsSound(s, v, delta, f);
      }
  }

  lemma VoterIsKnown(s: State, v: Name, proxy: Name, list: seq<Name>, f: real)
    requires VoteProducer(s, v, proxy, list, f).Some?
    ensures v in s.voters
  {
  }

  /** No step of the run suppresses a change that matters. */
  ghost predicate Clean(s: State, actions: seq<(Action, real)>) {
    actions == [] ||
    var rest := actions[..|actions| - 1];
    var (a, f) := actions[|actions| - 1];
    f >= 0.0 && Clean(s, rest) && !StepSuppressed(Run(s, rest), a, f)
  }

  lemma EmptyIsSound()
    ensures Sound(EMPTY)
  {
    hide Tallied;
    assert Ranked(EMPTY.voters, map[]);
    EmptyIsTallied();
  }

  lemma EmptyIsTallied()
    ensures Tallied(EMPTY, BallotsOf(EMPTY.voters))
  {
    assert BallotsOf(EMPTY.voters) == map[];
    SumOfZeros({}, (p: Name) => 0.0);
  }

  /** With any factors, as long as no change that matters is suppressed, all totals are right
      after every run. */
  lemma {:induction false} RunKeepsSound(actions: seq<(Action, real)>)
    requires Clean(EMPTY, actions)
    ensures Sound(Run(EMPTY, actions))
  {
    hide Sound, Step, StepSuppressed;
    if actions == [] {
      EmptyIsSound();
    } else {
      RunKeepsSound(actions[..|actions| - 1]);
      var (a, f) := actions[|actions| - 1];
      StepKeepsSound(Run(EMPTY, actions[..|actions| - 1]), a, f);
    }
  }

  // ----- one factor -----

  function Times(f: real, k: int): real {
    f * k as real
  }

  ghost predicate IsMultiple(x: real, f: real) {
    exists k: int :: x == Times(f, k)
  }

  lemma MultipleAdds(x: real, y: real, f: real)
    requires IsMultiple(x, f) && IsMultiple(y, f)
    ensures IsMultiple(x + y, f) && IsMultiple(x - y, f)
  {
    var j: int :| x == Times(f, j);
    var k: int :| y == Times(f, k);
    TimesAdds(f, j, k);
    assert x + y == Times(f, j + k);
    assert x - y == Times(f, j - k);
  }

  lemma TimesAdds(f: real, j: int, k: int)
    ensures Times(f, j) + Times(f, k) == Times(f, j + k)
    ensures Times(f, j) - Times(f, k) == Times(f, j - k)
  {
  }

  /** With a factor above one, no change but zero is negligible. */
  lemma SmallMultipleIsZero(x: real, f: real)
    requires IsMultiple(x, f) && f > 1.0 && Negligible(x)
    ensures x == 0.0
  {
    var k: int :| x == Times(f, k);
    if k >= 1 {
      TimesIsMonotone(f, 1, k);
    } else if k <= -1 {
      TimesIsMonotone(f, k, -1);
    }
  }

  lemma TimesIsMonotone(f: real, j: int, k: int)
    requires f >= 0.0 && j <= k
    ensures Times(f, j) <= Times(f, k)
  {
  }

  /** All weights are whole numbers of stake units times the factor. */
  ghost predicate Multiples(s: State, f: real) {
    forall v :: v in s.voters ==> IsMultiple(s.voters[v].last, f) && IsMultiple(s.voters[v].proxied, f)
  }

  lemma WeightIsMultiple(x: Voter, f: real)
    requires IsMultiple(x.proxied, f)
    ensures IsMultiple(Weight(x, f), f)
  {
    assert x.staked as real * f == Times(f, x.staked);
    MultipleAdds(Times(f, x.staked), x.proxied, f);
  }

  lemma ChangeProxiedMultiples(s: State, q: Name, d: real, f: real)
    requires Multiples(s, f) && q in s.voters && IsMultiple(d, f)
    ensures Multiples(ChangeProxied(s, q, d), f)
  {
    hide IsMultiple;
    MultipleAdds(s.voters[q].proxied, d, f);
  }

  lemma SetLastMultiples(s: State, v: Name, w: real, f: real)
    requires Multiples(s, f) && v in s.voters && IsMultiple(w, f)
    ensures Multiples(SetLast(s, v, w), f)
  {
    hide IsMultiple;
  }

  lemma {:induction false} PropagateMultiples(s: State, v: Name, f: real, seen: set<Name>)
    requires v in s.voters && Multiples(s, f)
    ensures Multiples(Propagate(s, v, f, seen), f)
    ensures f > 1.0 ==> !Suppressed(s, v, f, seen)
    decreases s.voters.Keys - seen
  {
    hide Multiples, IsMultiple, Weight, SetLast, ChangeProxied;
    var x := s.voters[v];
    var w := Weight(x, f);
    var d := w - x.last;
    MultiplesAt(s, v, f);
    WeightIsMultiple(x, f);
    MultipleAdds(w, x.last, f);
    if Negligible(d) {
      SetLastMultiples(s, v, w, f);
      if f > 1.0 {
        SmallMultipleIsZero(d, f);
      }
    } else if x.proxy == NOBODY {
      ChangeListedMultiples(s, v, d, f);
      SetLastMultiples(ChangeListed(s, v, d), v, w, f);
    } else if x.proxy in s.voters && x.proxy !in seen {
      ChangeProxiedMultiples(s, x.proxy, d, f);
      KeysOfChange(s, x.proxy, d);
      PropagateMultiples(ChangeProxied(s, x.proxy, d), x.proxy, f, seen + {x.proxy});
      SetLastMultiples(Propagate(ChangeProxied(s, x.proxy, d), x.proxy, f, seen + {x.proxy}), v, w, f);
    } else {
      SetLastMultiples(s, v, w, f);
    }
  }

  lemma KeysOfChange(s: State, q: Name, d: real)
    requires q in s.voters
    ensures ChangeProxied(s, q, d).voters.Keys == s.voters.Keys
  {
  }

  lemma MultiplesAt(s: State, v: Name, f: real)
    requires Multiples(s, f) && v in s.voters
    ensures IsMultiple(s.voters[v].last, f) && IsMultiple(s.voters[v].proxied, f)
  {
  }

  lemma ChangeListedMultiples(s: State, v: Name, d: real, f: real)
    requires Multiples(s, f) && v in s.voters
    ensures Multiples(ChangeListed(s, v, d), f)
  {
    hide IsMultiple;
  }

  lemma ZeroIsMultiple(f: real)
    ensures IsMultiple(0.0, f)
  {
    assert 0.0 == Times(f, 0);
  }

  lemma MovedMultiples(s: State, q: Name, d: real, f: real)
    requires Multiples(s, f) && q in s.voters && IsMultiple(d, f)
    ensures Multiples(Propagate(ChangeProxied(s, q, d), q, f, {q}), f)
    ensures f > 1.0 ==> !Suppressed(ChangeProxied(s, q, d), q, f, {q})
  {
    hide Multiples, IsMultiple;
    ChangeProxiedMultiples(s, q, d, f);
    KeysOfChange(s, q, d);
    PropagateMultiples(ChangeProxied(s, q, d), q, f, {q});
  }

  lemma LeaveMultiples(s: State, v: Name, f: real)
    requires Multiples(s, f) && v in s.voters
    ensures LeaveProxy(s, v, f).Some? ==> Multiples(LeaveProxy(s, v, f).value, f)
    ensures f > 1.0 ==> !LeaveSuppressed(s, v, f)
  {
    hide Multiples, IsMultiple, Propagate, Suppressed;
    var x := s.voters[v];
    if x.last > 0.0 && x.proxy != NOBODY && x.proxy in s.voters {
      MultiplesAt(s, v, f);
      ZeroIsMultiple(f);
      MultipleAdds(0.0, x.last, f);
      MovedMultiples(s, x.proxy, -x.last, f);
    }
  }

  lemma JoinMultiples(s: State, proxy: Name, w: real, voting: bool, f: real)
    requires Multiples(s, f) && IsMultiple(w, f)
    ensures JoinProxy(s, proxy, w, voting, f).Some? ==> Multiples(JoinProxy(s, proxy, w, voting, f).value, f)
    ensures f > 1.0 ==> !JoinSuppressed(s, proxy, w, f)
  {
    hide Multiples, IsMultiple, Propagate, Suppressed;
    if proxy != NOBODY && proxy in s.voters && w >= 0.0 {
      MovedMultiples(s, proxy, w, f);
    }
  }

  lemma CastMultiples(s: State, v: Name, a: real, minus: seq<Name>, w: real, proxy: Name, producers: seq<Name>, f: real)
    requires Multiples(s, f) && v in s.voters && IsMultiple(w, f)
    ensures Multiples(CastVote(s, v, a, minus, w, proxy, producers), f)
  {
    hide IsMultiple, ApplyDeltas, WeightDelta;
  }

  lemma UpdateMultiples(s: State, v: Name, proxy: Name, producers: seq<Name>, voting: bool, f: real)
    requires Multiples(s, f) && v in s.voters
    ensures var o := UpdateVotes(s, v, proxy, producers, voting, f); o.Some? ==> Multiples(o.value, f)
    ensures f > 1.0 ==> !UpdateSuppressed(Activating(s, v), v, proxy, f)
  {
    hide Multiples, IsMultiple, LeaveProxy, JoinProxy, CastVote, LeaveSuppressed, JoinSuppressed, Weight, VoteIsFormed, MayVoteFor;
    var x := s.voters[v];
    var w := Weight(x, f);
    var s0 := Activating(s, v);
    MultiplesIgnoreActivation(s, s0, f);
    MultiplesAt(s, v, f);
    WeightIsMultiple(x, f);
    LeaveMultiples(s0, v, f);
    if LeaveProxy(s0, v, f).Some? {
      var s1 := LeaveProxy(s0, v, f).value;
      JoinMultiples(s1, proxy, w, voting, f);
      if JoinProxy(s1, proxy, w, voting, f).Some? && v in JoinProxy(s1, proxy, w, voting, f).value.voters {
        CastMultiples(JoinProxy(s1, proxy, w, voting, f).value, v, x.last, OldList(x), w, proxy, producers, f);
      }
    }
  }

  lemma MultiplesIgnoreActivation(s: State, s': State, f: real)
    requires Multiples(s, f) && s'.voters == s.voters
    ensures Multiples(s', f)
  {
  }

  lemma SameWeightsMultiples(s: State, v: Name, x: Voter, f: real)
    requires Multiples(s, f) && IsMultiple(x.last, f) && IsMultiple(x.proxied, f)
    ensures Multiples(s.(voters := s.voters[v := x]), f)
  {
    hide IsMultiple;
  }

  lemma StakeMultiples(s: State, v: Name, delta: int, f: real)
    requires Multiples(s, f)
    ensures ChangeStake(s, v, delta, f).Some? ==> Multiples(ChangeStake(s, v, delta, f).value, f)
    ensures f > 1.0 ==> !ChangeStakeSuppressed(s, v, delta, f)
  {
    hide Multiples, IsMultiple, UpdateVotes, UpdateSuppressed;
    ZeroIsMultiple(f);
    if v in s.voters {
      MultiplesAt(s, v, f);
    }
    var x := if v in s.voters then s.voters[v] else NEW_VOTER;
    var x' := x.(staked := x.staked + delta);
    SameWeightsMultiples(s, v, x', f);
    UpdateMultiples(s.(voters := s.voters[v := x']), v, x'.proxy, x'.producers, false, f);
  }

  lemma ProxyMultiples(s: State, p: Name, flag: bool, f: real)
    requires Multiples(s, f)
    ensures RegProxy(s, p, flag, f).Some? ==> Multiples(RegProxy(s, p, flag, f).value, f)
    ensures f > 1.0 ==> !RegProxySuppressed(s, p, flag, f)
  {
    hide Multiples, IsMultiple, Propagate, Suppressed;
    ZeroIsMultiple(f);
    if p in s.voters {
      MultiplesAt(s, p, f);
      SameWeightsMultiples(s, p, s.voters[p].(isProxy := flag), f);
      PropagateMultiples(s.(voters := s.voters[p := s.voters[p].(isProxy := flag)]), p, f, {p});
    } else {
      SameWeightsMultiples(s, p, NEW_VOTER.(isProxy := flag), f);
    }
  }

  /** With one factor above one, no step ever suppresses a change that matters. */
  lemma StepMultiples(s: State, a: Action, f: real)
    requires Multiples(s, f)
    ensures Multiples(Step(s, a, f), f)
    ensures f > 1.0 ==> !StepSuppressed(s, a, f)
  {
    hide Multiples, RegProxy, ChangeStake, ChangeStakeSuppressed, RegProxySuppressed, UpdateSuppressed, UpdateVotes;
    match a
    case RegisterProducer(p) => MultiplesIgnoreActivation(s, RegProducer(s, p), f);
    case UnregisterProducer(p) =>
      if UnregProd(s, p).Some? {
        MultiplesIgnoreActivation(s, UnregProd(s, p).value, f);
      }
    case RegisterProxy(p, flag) => ProxyMultiples(s, p, flag, f);
    case Vote(v, proxy, list) =>
      if v in s.voters {
        UpdateMultiples(s, v, proxy, list, true, f);
      } else {
        UnknownVoter(s, v, proxy, list, f);
      }
    case Stake(v, delta) => StakeMultiples(s, v, delta, f);
  }

  lemma UnknownVoter(s: State, v: Name, proxy: Name, list: seq<Name>, f: real)
    requires v !in s.voters
    ensures VoteProducer(s, v, proxy, list, f).None?
  {
  }

  // ----- weights are current -----

  predicate HasVote(x: Voter) {
    x.proxy != NOBODY || x.producers != []
  }

  /** Every voter outside `except` that votes casts the weight it has now. */
  ghost predicate Current(s: State, f: real, except: set<Name>) {
    forall v :: v in s.voters && v !in except && HasVote(s.voters[v]) ==> s.voters[v].last == Weight(s.voters[v], f)
  }

  lemma SetLastCurrent(s: State, v: Name, f: real, except: set<Name>)
    requires v in s.voters && v !in except && Current(s, f, except + {v})
    ensures Current(SetLast(s, v, Weight(s.voters[v], f)), f, except)
  {
    hide Weight;
    WeightIgnoresLast(s.voters[v], Weight(s.voters[v], f), f);
  }

  lemma WeightIgnoresLast(x: Voter, w: real, f: real)
    ensures Weight(x.(last := w), f) == Weight(x, f)
  {
  }

  lemma CurrentOfVoters(s: State, s': State, f: real, except: set<Name>)
    requires Current(s, f, except) && s'.voters == s.voters
    ensures Current(s', f, except)
  {
    hide Weight;
  }

  lemma ChangeProxiedCurrent(s: State, q: Name, d: real, f: real, except: set<Name>)
    requires Current(s, f, except) && q in s.voters
    ensures Current(ChangeProxied(s, q, d), f, except + {q})
  {
    hide Weight;
  }

  lemma {:induction false} PropagateCurrent(s: State, v: Name, f: real, seen: set<Name>, r: map<Name, nat>, except: set<Name>)
    requires v in s.voters && Ranked(s.voters, r) && Current(s, f, except + {v})
    requires v !in except && forall u :: u in except && u in r ==> r[u] > r[v]
    ensures Current(Propagate(s, v, f, seen), f, except)
    decreases s.voters.Keys - seen
  {
    hide Current, Weight, SetLast, ChangeListed, Shape, ChangeProxied;
    var x := s.voters[v];
    var w := Weight(x, f);
    var d := w - x.last;
    if Negligible(d) {
      SetLastCurrent(s, v, f, except);
    } else if x.proxy == NOBODY {
      ListedVoters(s, v, d);
      CurrentOfVoters(s, ChangeListed(s, v, d), f, except + {v});
      SetLastCurrent(ChangeListed(s, v, d), v, f, except);
    } else if x.proxy in s.voters && x.proxy !in seen {
      var s1 := ChangeProxied(s, x.proxy, d);
      KeepsOthers(s, x.proxy, d, v);
      ProxiedRank(s, x.proxy, d, r);
      ChangeProxiedCurrent(s, x.proxy, d, f, except + {v});
      PropagateCurrent(s1, x.proxy, f, seen + {x.proxy}, r, except + {v});
      PropagateShape(s1, x.proxy, f, seen + {x.proxy}, r);
      var s2 := Propagate(s1, x.proxy, f, seen + {x.proxy});
      ShapeAbove(s1, s2, x.proxy, v, f, r);
      SetLastCurrent(s2, v, f, except);
    } else {
      SetLastCurrent(s, v, f, except);
    }
  }

  lemma ListedVoters(s: State, v: Name, d: real)
    requires v in s.voters
    ensures ChangeListed(s, v, d).voters == s.voters
  {
  }

  lemma ProxiedRank(s: State, q: Name, d: real, r: map<Name, nat>)
    requires q in s.voters && Ranked(s.voters, r)
    ensures Ranked(ChangeProxied(s, q, d).voters, r)
  {
  }

  lemma ShapeAbove(s: State, s': State, q: Name, v: Name, f: real, r: map<Name, nat>)
    requires Ranked(s.voters, r) && q in s.voters && v in s.voters && r[q] < r[v] && Shape(s, s', q, f, r)
    ensures v in s'.voters && s'.voters[v] == s.voters[v]
  {
    hide Weight;
  }

  lemma MovedCurrent(s: State, q: Name, d: real, f: real, r: map<Name, nat>, v: Name)
    requires Ranked(s.voters, r) && q in s.voters && v in s.voters && q != v && r[q] < r[v] && Current(s, f, {v})
    ensures Current(Propagate(ChangeProxied(s, q, d), q, f, {q}), f, {v})
  {
    hide Current, Propagate, ChangeProxied;
    ChangeProxiedCurrent(s, q, d, f, {v});
    ProxiedRank(s, q, d, r);
    KeepsOthers(s, q, d, v);
    PropagateCurrent(ChangeProxied(s, q, d), q, f, {q}, r, {v});
  }

  lemma LeaveCurrent(s: State, v: Name, f: real, r: map<Name, nat>)
    requires WellFormed(s) && Ranked(s.voters, r) && v in s.voters && Current(s, f, {v}) && LeaveProxy(s, v, f).Some?
    ensures Current(LeaveProxy(s, v, f).value, f, {v})
  {
    hide Current, Propagate, WellFormed, Ranked, ChangeProxied;
    var x := s.voters[v];
    if x.last > 0.0 && x.proxy != NOBODY {
      ProxyIsKnown(s, v, r);
      MovedCurrent(s, x.proxy, -x.last, f, r, v);
    }
  }

  lemma JoinCurrent(s: State, v: Name, proxy: Name, w: real, voting: bool, f: real, r: map<Name, nat>)
    requires Ranked(s.voters, r) && v in s.voters && Current(s, f, {v}) && JoinProxy(s, proxy, w, voting, f).Some?
    requires proxy != NOBODY ==> proxy in s.voters && proxy != v && r[proxy] < r[v]
    ensures Current(JoinProxy(s, proxy, w, voting, f).value, f, {v})
  {
    hide Current, Propagate, ChangeProxied;
    if proxy != NOBODY && w >= 0.0 {
      MovedCurrent(s, proxy, w, f, r, v);
    }
  }

  lemma CastCurrent(s: State, v: Name, x: Voter, a: real, minus: seq<Name>, proxy: Name, producers: seq<Name>, f: real)
    requires v in s.voters && Current(s, f, {v}) && s.voters[v] == x
    ensures Current(CastVote(s, v, a, minus, Weight(x, f), proxy, producers), f, {})
  {
    hide Weight, ApplyDeltas, WeightDelta;
    WeightIgnoresVote(x, Weight(x, f), proxy, producers, f);
  }

  lemma WeightIgnoresVote(x: Voter, w: real, proxy: Name, producers: seq<Name>, f: real)
    ensures Weight(x.(last := w, producers := producers, proxy := proxy), f) == Weight(x, f)
  {
  }

  lemma UpdateCurrent(s: State, v: Name, proxy: Name, producers: seq<Name>, voting: bool, f: real)
    requires Sound(s) && f >= 0.0 && v in s.voters && Current(s, f, {v})
    requires UpdateVotes(s, v, proxy, producers, voting, f).Some? && (voting || proxy == s.voters[v].proxy)
    requires !UpdateSuppressed(Activating(s, v), v, proxy, f)
    ensures Current(UpdateVotes(s, v, proxy, producers, voting, f).value, f, {})
  {
    hide Sound, Current, WellFormed, LeaveProxy, JoinProxy, CastVote, LeaveSuppressed, JoinSuppressed, Underway, Weight, Tallied, Sorted;
    var x := s.voters[v];
    var w := Weight(x, f);
    var s0 := Activating(s, v);
    ActivationIsNoVote(s, s.activated + x.staked);
    var r := RankOf(s0);
    VoterWeights(s0, v, f);
    CurrentOfVoters(s, s0, f, {v});
    SoundForm(s0);
    LeaveCurrent(s0, v, f, r);
    var b := LeaveKeeps(s0, v, f, r);
    var s1 := LeaveProxy(s0, v, f).value;
    JoinKnown(s1, proxy, w, voting, f);
    if proxy != NOBODY {
      r := RankForProxy(s1, b, v, proxy, voting, w, f, r);
    }
    UnderwayRanked(s1, b, v, r);
    JoinCurrent(s1, v, proxy, w, voting, f, r);
    var b' := JoinKeeps(s1, b, v, proxy, w, voting, f, r);
    var s2 := JoinProxy(s1, proxy, w, voting, f).value;
    CastCurrent(s2, v, x, x.last, OldList(x), proxy, producers, f);
  }

  lemma UnderwayRanked(s: State, b: Ballots, v: Name, r: map<Name, nat>)
    requires Underway(s, b, v, r)
    ensures Ranked(s.voters, r)
  {
  }

  lemma SoundForm(s: State)
    requires Sound(s)
    ensures WellFormed(s)
  {
  }

  lemma ProxyCurrent(s: State, p: Name, flag: bool, f: real)
    requires Sound(s) && f >= 0.0 && Current(s, f, {}) && RegProxy(s, p, flag, f).Some?
    ensures Current(RegProxy(s, p, flag, f).value, f, {})
  {
    hide Sound, Propagate, Weight;
    if p in s.voters {
      var s1 := s.(voters := s.voters[p := s.voters[p].(isProxy := flag)]);
      var r := RankOf(s);
      assert Ranked(s1.voters, r);
      assert Current(s1, f, {} + {p});
      PropagateCurrent(s1, p, f, {p}, r, {});
    }
  }

  lemma StakeCurrent(s: State, v: Name, delta: int, f: real)
    requires Sound(s) && f >= 0.0 && Current(s, f, {}) && ChangeStake(s, v, delta, f).Some?
    requires !ChangeStakeSuppressed(s, v, delta, f)
    ensures Current(ChangeStake(s, v, delta, f).value, f, {})
  {
    hide Sound, UpdateVotes, UpdateSuppressed, Weight;
    if v in s.voters {
      StakeIsNoVote(s, v, s.voters[v].staked + delta);
      var s' := s.(voters := s.voters[v := s.voters[v].(staked := s.voters[v].staked + delta)]);
      if HasVote(s'.voters[v]) {
        UpdateCurrent(s', v, s'.voters[v].proxy, s'.voters[v].producers, false, f);
      }
    }
  }

  lemma StepCurrent(s: State, a: Action, f: real)
    requires Sound(s) && f >= 0.0 && Current(s, f, {}) && !StepSuppressed(s, a, f)
    ensures Current(Step(s, a, f), f, {})
  {
    hide Sound, RegProxy, ChangeStake, ChangeStakeSuppressed, RegProxySuppressed, UpdateSuppressed, UpdateVotes, Current;
    match a
    case RegisterProducer(p) => CurrentOfVoters(s, RegProducer(s, p), f, {});
    case UnregisterProducer(p) =>
      if UnregProd(s, p).Some? {
        CurrentOfVoters(s, UnregProd(s, p).value, f, {});
      }
    case RegisterProxy(p, flag) =>
      if RegProxy(s, p, flag, f).Some? {
        ProxyCurrent(s, p, flag, f);
      }
    case Vote(v, proxy, list) =>
      if VoteProducer(s, v, proxy, list, f).Some? {
        VoterIsKnown(s, v, proxy, list, f);
        CurrentWithout(s, f, v);
        UpdateCurrent(s, v, proxy, list, true, f);
      }
    case Stake(v, delta) =>
      if ChangeStake(s, v, delta, f).Some? {
        StakeCurrent(s, v, delta, f);
      }
  }

  lemma CurrentWithout(s: State, f: real, v: Name)
    requires Current(s, f, {})
    ensures Current(s, f, {v})
  {
    hide Weight;
  }

  // ----- what the totals mean -----

  /** The stake-based weight delegated to `q`. */
  ghost function DelegatedStake(voters: map<Name, Voter>, f: real, q: Name): real {
    Sum(voters.Keys, (u: Name) => if u in voters && voters[u].proxy == q then voters[u].staked as real * f else 0.0)
  }

  /** The weight of a voter computed from stakes alone. */
  ghost function StakeWeight(voters: map<Name, Voter>, f: real, v: Name): real
    requires v in voters
  {
    voters[v].staked as real * f + (if voters[v].isProxy then DelegatedStake(voters, f, v) else 0.0)
  }

  /** The votes for a producer computed from stakes alone. */
  ghost function StakeVotes(voters: map<Name, Voter>, f: real, p: Name): real {
    Sum(voters.Keys, (u: Name) => if u in voters && p in voters[u].producers then StakeWeight(voters, f, u) else 0.0)
  }

  ghost predicate Exact(s: State, f: real) {
    && (forall p :: p in s.producers ==> s.producers[p].totalVotes == StakeVotes(s.voters, f, p))
    && (forall q :: q in s.voters ==> s.voters[q].proxied == DelegatedStake(s.voters, f, q))
    && (forall v :: v in s.voters && s.voters[v].isProxy ==> s.voters[v].proxy == NOBODY)
  }

  lemma ProxyShareIsStake(s: State, f: real, u: Name, q: Name)
    requires WellFormed(s) && Current(s, f, {}) && u in s.voters && q in s.voters
    ensures ProxyShare(BallotsOf(s.voters), u, q) == if s.voters[u].proxy == q then s.voters[u].staked as real * f else 0.0
  {
    hide Sorted, ListsKnown;
  }

  lemma ProxiedIsStake(s: State, f: real, q: Name)
    requires Sound(s) && Current(s, f, {}) && q in s.voters
    ensures s.voters[q].proxied == DelegatedStake(s.voters, f, q)
  {
    hide VoteTotal, ListSum, WellFormed, Acyclic, Current, ProxyShare;
    var b := BallotsOf(s.voters);
    assert b.Keys == s.voters.Keys;
    forall u | u in b.Keys
      ensures ProxyShare(b, u, q) == if u in s.voters && s.voters[u].proxy == q then s.voters[u].staked as real * f else 0.0
    {
      ProxyShareIsStake(s, f, u, q);
    }
    SumAgrees(b.Keys, (u: Name) => ProxyShare(b, u, q),
              (u: Name) => if u in s.voters && s.voters[u].proxy == q then s.voters[u].staked as real * f else 0.0);
  }

  lemma WeightIsStake(s: State, f: real, u: Name)
    requires Sound(s) && Current(s, f, {}) && u in s.voters
    ensures Weight(s.voters[u], f) == StakeWeight(s.voters, f, u)
  {
    hide Sound, Current, DelegatedStake;
    ProxiedIsStake(s, f, u);
  }

  lemma VotesAreStake(s: State, f: real, p: Name)
    requires Sound(s) && Current(s, f, {}) && p in s.producers
    ensures s.producers[p].totalVotes == StakeVotes(s.voters, f, p)
  {
    hide VoteTotal, ProxySum, Sorted, Ranked, DelegatedStake, Weight, StakeWeight;
    var b := BallotsOf(s.voters);
    assert b.Keys == s.voters.Keys;
    forall u | u in b.Keys
      ensures ListShare(b, u, p) == if u in s.voters && p in s.voters[u].producers then StakeWeight(s.voters, f, u) else 0.0
    {
      WeightIsStake(s, f, u);
    }
    SumAgrees(b.Keys, (u: Name) => ListShare(b, u, p),
              (u: Name) => if u in s.voters && p in s.voters[u].producers then StakeWeight(s.voters, f, u) else 0.0);
  }

  lemma SoundIsExact(s: State, f: real)
    requires Sound(s) && Current(s, f, {})
    ensures Exact(s, f)
  {
    hide Tallied, Current, Sorted, StakeVotes, DelegatedStake;
    forall p | p in s.producers
      ensures s.producers[p].totalVotes == StakeVotes(s.voters, f, p)
    {
      VotesAreStake(s, f, p);
    }
    forall q | q in s.voters
      ensures s.voters[q].proxied == DelegatedStake(s.voters, f, q)
    {
      ProxiedIsStake(s, f, q);
    }
  }

  /** A run all of whose actions happen under one factor. */
  function Steady(actions: seq<Action>, f: real): seq<(Action, real)> {
    seq(|actions|, i requires 0 <= i < |actions| => (actions[i], f))
  }

  lemma {:induction false} SteadyRun(actions: seq<Action>, f: real)
    requires f > 1.0
    ensures var s := Run(EMPTY, Steady(actions, f)); Sound(s) && Multiples(s, f) && Current(s, f, {})
  {
    hide Sound, Multiples, Current, Step, StepSuppressed;
    if actions == [] {
      EmptyIsSound();
      EmptyIsCurrent(f);
    } else {
      var rest := actions[..|actions| - 1];
      var all := Steady(actions, f);
      SteadyRun(rest, f);
      assert all[..|all| - 1] == Steady(rest, f);
      var s, a := Run(EMPTY, Steady(rest, f)), actions[|actions| - 1];
      StepMultiples(s, a, f);
      StepKeepsSound(s, a, f);
      StepCurrent(s, a, f);
    }
  }

  lemma EmptyIsCurrent(f: real)
    ensures Multiples(EMPTY, f) && Current(EMPTY, f, {})
  {
  }

  /** Under a factor above one, after every run the totals are what the stakes say. */
  lemma SteadyRunIsExact(actions: seq<Action>, f: real)
    requires f > 1.0
    ensures Exact(Run(EMPTY, Steady(actions, f)), f)
  {
    hide Sound, Multiples, Current, Run, Exact;
    SteadyRun(actions, f);
    SoundIsExact(Run(EMPTY, Steady(actions, f)), f);
  }

  // ----- a factor of at most one -----

  const LOST_VOTE: seq<Action> :=
    [RegisterProducer(1), RegisterProxy(2, true), Vote(2, NOBODY, [1]), Stake(3, 1), Vote(3, 2, [])]

  const PROXY := Voter(NOBODY, [1], 0, 0.0, 0.0, true)

  lemma ProxyVotes(f: real)
    ensures var s := State(map[2 := NEW_VOTER.(isProxy := true)], map[1 := Producer(0.0, true)], 0.0, 0);
            Step(s, Vote(2, NOBODY, [1]), f) == State(map[2 := PROXY], map[1 := Producer(0.0, true)], 0.0, 0)
  {
    var s := State(map[2 := NEW_VOTER.(isProxy := true)], map[1 := Producer(0.0, true)], 0.0, 0);
    var x := s.voters[2];
    assert 0.0 * f == 0.0;
    assert Weight(x, f) == 0.0;
    assert VoteIsFormed(s, 2, NOBODY, [1]);
    assert MayVoteFor(s, [1], true);
    assert [1][..0] == [];
    assert Found([1], s.producers) == 1;
    assert OldList(x) == [];
    assert CastVote(s, 2, 0.0, [], 0.0, NOBODY, [1]) == State(map[2 := PROXY], map[1 := Producer(0.0, true)], 0.0, 0) by {
      assert s.voters[2 := PROXY] == map[2 := PROXY];
      assert ApplyDeltas(s.producers, [], 0.0, [1], 0.0) == map[1 := Producer(0.0, true)];
    }
  }

  lemma DelegatedVoteIsLost(f: real)
    requires 0.0 < f <= 1.0
    ensures var s := State(map[2 := PROXY, 3 := NEW_VOTER.(staked := 1)], map[1 := Producer(0.0, true)], 0.0, 0);
            var s' := Step(s, Vote(3, 2, []), f);
            && s'.voters == map[2 := PROXY.(proxied := f, last := f), 3 := Voter(2, [], 1, f, 0.0, false)]
            && s'.producers == map[1 := Producer(0.0, true)]
  {
    var s := State(map[2 := PROXY, 3 := NEW_VOTER.(staked := 1)], map[1 := Producer(0.0, true)], 0.0, 0);
    var x := s.voters[3];
    assert Weight(x, f) == f;
    assert VoteIsFormed(s, 3, 2, []);
    var s0 := s.(activated := 1);
    assert LeaveProxy(s0, 3, f) == Some(s0);
    var s1 := ChangeProxied(s0, 2, f);
    assert s1.voters[2] == PROXY.(proxied := f);
    assert 0.0 * f == 0.0;
    assert Weight(s1.voters[2], f) == f;
    assert Propagate(s1, 2, f, {2}) == SetLast(s1, 2, f);
    var s2 := SetLast(s1, 2, f);
    assert JoinProxy(s0, 2, f, true, f) == Some(s2);
    var s3 := CastVote(s2, 3, 0.0, [], f, 2, []);
    assert ApplyDeltas(s2.producers, [], 0.0, [], f) == map[1 := Producer(0.0, true)];
    assert s3.voters == map[2 := PROXY.(proxied := f, last := f), 3 := Voter(2, [], 1, f, 0.0, false)];
  }

  lemma LostVoteCounts(f: real, voters: map<Name, Voter>)
    requires 0.0 < f && voters == map[2 := PROXY.(proxied := f, last := f), 3 := Voter(2, [], 1, f, 0.0, false)]
    ensures StakeVotes(voters, f, 1) == f
  {
    var g := (u: Name) => if u in voters && voters[u].proxy == 2 then voters[u].staked as real * f else 0.0;
    assert voters.Keys == {2, 3};
    SumExtract({2, 3}, g, 3);
    assert {2, 3} - {3} == {2};
    SumExtract({2}, g, 2);
    assert {2} - {2} == {};
    assert DelegatedStake(voters, f, 2) == f;
    assert 0.0 * f == 0.0;
    assert StakeWeight(voters, f, 2) == f;
    var h := (u: Name) => if u in voters && 1 in voters[u].producers then StakeWeight(voters, f, u) else 0.0;
    SumExtract({2, 3}, h, 3);
    SumExtract({2}, h, 2);
  }

  /** A stake of one unit delegated to a proxy never reaches the producer the proxy votes for. */
  lemma SmallFactorLosesVotes(f: real)
    requires 0.0 < f <= 1.0
    ensures !Exact(Run(EMPTY, Steady(LOST_VOTE, f)), f)
  {
    var all := Steady(LOST_VOTE, f);
    var s1 := State(map[], map[1 := Producer(0.0, true)], 0.0, 0);
    var s2 := State(map[2 := NEW_VOTER.(isProxy := true)], map[1 := Producer(0.0, true)], 0.0, 0);
    var s3 := State(map[2 := PROXY], map[1 := Producer(0.0, true)], 0.0, 0);
    var s4 := State(map[2 := PROXY, 3 := NEW_VOTER.(staked := 1)], map[1 := Producer(0.0, true)], 0.0, 0);
    FirstSteps(f, s1, s2, s3, s4);
    ProxyVotes(f);
    DelegatedVoteIsLost(f);
    hide Step, Exact;
    RunUnfolds(all, f, s1, s2, s3, s4);
    var s5 := Run(EMPTY, all);
    LostVoteCounts(f, s5.voters);
    NotExact(s5, f);
  }

  lemma NotExact(s: State, f: real)
    requires 1 in s.producers && s.producers[1].totalVotes != StakeVotes(s.voters, f, 1)
    ensures !Exact(s, f)
  {
  }

  lemma FirstSteps(f: real, s1: State, s2: State, s3: State, s4: State)
    requires s1 == State(map[], map[1 := Producer(0.0, true)], 0.0, 0)
    requires s2 == State(map[2 := NEW_VOTER.(isProxy := true)], map[1 := Producer(0.0, true)], 0.0, 0)
    requires s3 == State(map[2 := PROXY], map[1 := Producer(0.0, true)], 0.0, 0)
    requires s4 == State(map[2 := PROXY, 3 := NEW_VOTER.(staked := 1)], map[1 := Producer(0.0, true)], 0.0, 0)
    ensures Step(EMPTY, RegisterProducer(1), f) == s1
    ensures Step(s1, RegisterProxy(2, true), f) == s2
    ensures Step(s3, Stake(3, 1), f) == s4
  {
  }

  lemma RunUnfolds(all: seq<(Action, real)>, f: real, s1: State, s2: State, s3: State, s4: State)
    requires all == Steady(LOST_VOTE, f)
    requires Step(EMPTY, RegisterProducer(1), f) == s1 && Step(s1, RegisterProxy(2, true), f) == s2
    requires Step(s2, Vote(2, NOBODY, [1]), f) == s3 && Step(s3, Stake(3, 1), f) == s4
    ensures Run(EMPTY, all) == Step(s4, Vote(3, 2, []), f)
  {
    hide Step;
    assert all[..5] == all && all[..5][..4] == all[..4] && all[..4][..3] == all[..3] && all[..3][..2] == all[..2]
        && all[..2][..1] == all[..1] && all[..1][..0] == [];
    assert Run(EMPTY, all[..1]) == s1;
    assert Run(EMPTY, all[..2]) == s2;
    assert Run(EMPTY, all[..3]) == s3;
    assert Run(EMPTY, all[..4]) == s4;
  }

  /** Under one positive factor the totals are exact after every run if and only if the factor
      is greater than one. */
  lemma SteadyRunsAreExactIff(f: real)
    requires f > 0.0
    ensures (forall actions :: Exact(Run(EMPTY, Steady(actions, f)), f)) <==> f > 1.0
  {
    hide Exact, Run;
    if f > 1.0 {
      forall actions
        ensures Exact(Run(EMPTY, Steady(actions, f)), f)
      {
        SteadyRunIsExact(actions, f);
      }
    } else {
      SmallFactorLosesVotes(f);
    }
  }
}
