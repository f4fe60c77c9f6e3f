/** What the voting actions record, and exactly when they succeed: votes, registrations and activated
    stake, in all tables, whatever their totals. */
module VotingEffects {
  import opened Options
  import opened Sums
  import opened Voting
  import opened VotingRuns

  // ----- passing on a change touches weights only -----

  /** Votes, stakes and registrations are as they were; only weights and totals may differ. */
  ghost predicate Kept(s: State, s': State) {
    SameVotes(s.voters, s'.voters) && SameProducers(s.producers, s'.producers) && s'.activated == s.activated
  }

  lemma KeptThrough(s: State, s1: State, s2: State)
    requires Kept(s, s1) && Kept(s1, s2)
    ensures Kept(s, s2)
  {
  }

  lemma WeightsOnly(s: State, v: Name, q: Name, d: real, w: real)
    requires v in s.voters
    ensures Kept(s, s) && Kept(s, SetLast(s, v, w)) && Kept(s, ChangeListed(s, v, d))
    ensures q in s.voters ==> Kept(s, ChangeProxied(s, q, d))
  {
  }

  lemma {:induction false} PropagateKeeps(s: State, v: Name, f: real, seen: set<Name>)
    requires v in s.voters
    ensures Kept(s, Propagate(s, v, f, seen))
    decreases s.voters.Keys - seen
  {
    hide Kept, SetLast, ChangeListed, ChangeProxied, Weight;
    var x := s.voters[v];
    var w := Weight(x, f);
    var d := w - x.last;
    WeightsOnly(s, v, x.proxy, d, w);
    if !Negligible(d) {
      if x.proxy == NOBODY {
        var s1 := ChangeListed(s, v, d);
        KeptKeys(s, s1);
        WeightsOnly(s1, v, v, d, w);
        KeptThrough(s, s1, SetLast(s1, v, w));
      } else if x.proxy in s.voters && x.proxy !in seen {
        var s1 := ChangeProxied(s, x.proxy, d);
        KeptKeys(s, s1);
        PropagateKeeps(s1, x.proxy, f, seen + {x.proxy});
        var s2 := Propagate(s1, x.proxy, f, seen + {x.proxy});
        KeptThrough(s, s1, s2);
        WeightsOnly(s2, v, v, d, w);
        KeptThrough(s, s2, SetLast(s2, v, w));
      }
    }
  }

  lemma KeptKeys(s: State, s': State)
    requires Kept(s, s')
    ensures s'.voters.Keys == s.voters.Keys && s'.producers.Keys == s.producers.Keys
  {
  }

  lemma PassOnKeeps(s: State, q: Name, d: real, f: real)
    requires q in s.voters && PassOn(ChangeProxied(s, q, d), q, f).Some?
    ensures Kept(s, PassOn(ChangeProxied(s, q, d), q, f).value)
  {
    hide Kept, ChangeProxied, Propagate, Passable;
    WeightsOnly(s, q, q, d, 0.0);
    var s1 := ChangeProxied(s, q, d);
    KeptKeys(s, s1);
    PropagateKeeps(s1, q, f, {q});
    KeptThrough(s, s1, Propagate(s1, q, f, {q}));
  }

  lemma LeaveKeepsVotes(s: State, v: Name, f: real)
    requires v in s.voters && LeaveProxy(s, v, f).Some?
    ensures Kept(s, LeaveProxy(s, v, f).value)
  {
    hide Kept, ChangeProxied, PassOn;
    WeightsOnly(s, v, v, 0.0, 0.0);
    var x := s.voters[v];
    if x.last > 0.0 && x.proxy != NOBODY {
      PassOnKeeps(s, x.proxy, -x.last, f);
    }
  }

  lemma JoinKeepsVotes(s: State, proxy: Name, w: real, voting: bool, f: real)
    requires JoinProxy(s, proxy, w, voting, f).Some?
    ensures Kept(s, JoinProxy(s, proxy, w, voting, f).value)
  {
    if proxy != NOBODY && w >= 0.0 {
      hide Kept, ChangeProxied, PassOn;
      PassOnKeeps(s, proxy, w, f);
    }
  }

  // ----- voting -----

  /** The stake counted with the factor; a proxy adds what is delegated to it. */
  ghost function Strength(x: Voter, f: real): real {
    if x.isProxy then x.staked as real * f + x.proxied else x.staked as real * f
  }

  lemma StrengthIsWeight(x: Voter, f: real)
    ensures Weight(x, f) == Strength(x, f)
  {
  }

  /** One vote is recorded: the voter's proxy, list and weight. All other votes, every stake and every
      registration stay. A voter without weight so far has its stake activated. */
  ghost predicate VoteIsRecorded(s: State, s': State, v: Name, proxy: Name, list: seq<Name>, f: real) {
    && v in s.voters && s'.voters.Keys == s.voters.Keys
    && s'.voters[v].proxy == proxy && s'.voters[v].producers == list && s'.voters[v].last == Strength(s.voters[v], f)
    && s'.voters[v].staked == s.voters[v].staked && s'.voters[v].isProxy == s.voters[v].isProxy
    && (forall u :: u in s.voters && u != v ==> s'.voters[u] == s.voters[u].(last := s'.voters[u].last, proxied := s'.voters[u].proxied))
    && SameProducers(s.producers, s'.producers)
    && s'.activated == s.activated + (if s.voters[v].last <= 0.0 then s.voters[v].staked else 0)
  }

  lemma CastRecords(s: State, v: Name, a: real, minus: seq<Name>, w: real, proxy: Name, list: seq<Name>)
    requires v in s.voters
    ensures var s' := CastVote(s, v, a, minus, w, proxy, list);
            && s'.voters == s.voters[v := s.voters[v].(last := w, producers := list, proxy := proxy)]
            && SameProducers(s.producers, s'.producers) && s'.activated == s.activated
            && (forall p :: p in s.producers && (p in minus || (proxy == NOBODY && w >= 0.0 && p in list)) ==>
                  s'.producers[p].totalVotes >= 0.0)
  {
    hide Found, WeightDelta;
  }

  lemma UpdateRecords(s: State, v: Name, proxy: Name, list: seq<Name>, voting: bool, f: real)
    requires UpdateVotes(s, v, proxy, list, voting, f).Some?
    ensures VoteIsRecorded(s, UpdateVotes(s, v, proxy, list, voting, f).value, v, proxy, list, f)
  {
    hide LeaveProxy, JoinProxy, CastVote, Weight, MayVoteFor, Kept, OldList, Sorted;
    var x := s.voters[v];
    var w := Weight(x, f);
    var s0 := if x.last <= 0.0 then s.(activated := s.activated + x.staked) else s;
    LeaveKeepsVotes(s0, v, f);
    var s1 := LeaveProxy(s0, v, f).value;
    JoinKeepsVotes(s1, proxy, w, voting, f);
    var s2 := JoinProxy(s1, proxy, w, voting, f).value;
    KeptThrough(s0, s1, s2);
    KeptKeys(s0, s2);
    CastRecords(s2, v, x.last, OldList(x), w, proxy, list);
    RecordedFrom(s, s0, s2, CastVote(s2, v, x.last, OldList(x), w, proxy, list), v, proxy, list, f);
  }

  lemma RecordedFrom(s: State, s0: State, s2: State, s': State, v: Name, proxy: Name, list: seq<Name>, f: real)
    requires v in s.voters && s0 == s.(activated := s.activated + (if s.voters[v].last <= 0.0 then s.voters[v].staked else 0)) && Kept(s0, s2)
    requires s'.voters == s2.voters[v := s2.voters[v].(last := Weight(s.voters[v], f), producers := list, proxy := proxy)]
    requires SameProducers(s2.producers, s'.producers) && s'.activated == s2.activated
    ensures VoteIsRecorded(s, s', v, proxy, list, f)
  {
    hide Weight, Strength;
    StrengthIsWeight(s.voters[v], f);
  }

  /** An accepted vote is recorded. */
  lemma VoteEffect(s: State, v: Name, proxy: Name, list: seq<Name>, f: real)
    requires VoteProducer(s, v, proxy, list, f).Some?
    ensures VoteIsRecorded(s, VoteProducer(s, v, proxy, list, f).value, v, proxy, list, f)
  {
    hide UpdateVotes, VoteIsRecorded;
    UpdateRecords(s, v, proxy, list, true, f);
  }

  /** Up to thirty producers in ascending order, all of them registered and active if they are given
      any weight; or a registered proxy other than the voter, who is none. */
  ghost predicate MayVote(s: State, v: Name, proxy: Name, list: seq<Name>, f: real) {
    && v in s.voters
    && if proxy != NOBODY then
         list == [] && proxy != v && !s.voters[v].isProxy && proxy in s.voters && s.voters[proxy].isProxy
       else
         && |list| <= 30 && (forall i, j :: 0 <= i < j < |list| ==> list[i] < list[j])
         && (Strength(s.voters[v], f) >= 0.0 ==> forall p :: p in list ==> p in s.producers && s.producers[p].isActive)
  }

  lemma JoinSucceedsIff(s: State, proxy: Name, w: real, f: real, r: map<Name, nat>)
    requires WellFormed(s) && Ranked(s.voters, r)
    ensures JoinProxy(s, proxy, w, true, f).Some? <==> proxy == NOBODY || (proxy in s.voters && s.voters[proxy].isProxy)
  {
    hide WellFormed, Ranked, PassOn, ChangeProxied;
    if proxy != NOBODY && proxy in s.voters && s.voters[proxy].isProxy {
      JoinSucceeds(s, proxy, w, f, r);
    }
  }

  lemma SameChoice(s: State, s': State, list: seq<Name>)
    requires Kept(s, s')
    ensures MayVoteFor(s', list, true) <==> forall p :: p in list ==> p in s.producers && s.producers[p].isActive
    ensures forall u :: u in s.voters ==> u in s'.voters && s'.voters[u].isProxy == s.voters[u].isProxy
  {
  }

  /** A vote is accepted exactly when it may be cast. */
  lemma VoteSucceedsIff(s: State, v: Name, proxy: Name, list: seq<Name>, f: real)
    requires WellFormed(s) && Acyclic(s.voters)
    ensures VoteProducer(s, v, proxy, list, f).Some? <==> MayVote(s, v, proxy, list, f)
  {
    hide LeaveProxy, JoinProxy, CastVote, Weight, Strength, MayVoteFor, Kept, OldList, WellFormed, Ranked;
    NobodyIsNoVoter(s);
    if v in s.voters {
      var x := s.voters[v];
      var w := Weight(x, f);
      StrengthIsWeight(x, f);
      var s0 := if x.last <= 0.0 then s.(activated := s.activated + x.staked) else s;
      var r :| Ranked(s.voters, r);
      ActivationKeepsForm(s, s.activated + x.staked);
      LeaveSucceeds(s0, v, f, r);
      LeaveKeepsVotes(s0, v, f);
      var s1 := LeaveProxy(s0, v, f).value;
      SameChoice(s0, s1, list);
      KeptKeys(s0, s1);
      JoinSucceedsIff(s1, proxy, w, f, r);
      if JoinProxy(s1, proxy, w, true, f).Some? {
        JoinKeepsVotes(s1, proxy, w, true, f);
        var s2 := JoinProxy(s1, proxy, w, true, f).value;
        KeptThrough(s0, s1, s2);
        KeptKeys(s0, s2);
        SameChoice(s0, s2, list);
      }
    }
  }

  // ----- registrations -----

  /** Registering as a proxy, or no longer, is accepted exactly when it changes something and the
      account uses no proxy itself. */
  lemma RegProxySucceedsIff(s: State, p: Name, flag: bool, f: real)
    requires WellFormed(s) && Acyclic(s.voters)
    ensures RegProxy(s, p, flag, f).Some? <==>
              p != NOBODY && (p in s.voters ==> flag != s.voters[p].isProxy && !(flag && s.voters[p].proxy != NOBODY))
  {
    hide Propagate, Passable, WellFormed, Ranked, NoneBelow;
    if p != NOBODY && p in s.voters && flag != s.voters[p].isProxy && !(flag && s.voters[p].proxy != NOBODY) {
      var r :| Ranked(s.voters, r);
      FlagKeepsWellFormed(s, p, flag, r);
      WellFormedPassesOn(s.(voters := s.voters[p := s.voters[p].(isProxy := flag)]), p, f, r);
    }
  }

  lemma FlagKeepsWellFormed(s: State, p: Name, flag: bool, r: map<Name, nat>)
    requires WellFormed(s) && Ranked(s.voters, r) && p in s.voters && !(flag && s.voters[p].proxy != NOBODY)
    ensures var s' := s.(voters := s.voters[p := s.voters[p].(isProxy := flag)]); WellFormed(s') && Ranked(s'.voters, r)
  {
    hide Sorted;
  }

  /** The flag of one account changes, or a new account without stake appears. */
  lemma RegProxyEffect(s: State, p: Name, flag: bool, f: real)
    requires RegProxy(s, p, flag, f).Some?
    ensures var s' := RegProxy(s, p, flag, f).value;
            && s'.voters.Keys == s.voters.Keys + {p} && s'.voters[p].isProxy == flag
            && (p in s.voters ==>
                  Kept(s.(voters := s.voters[p := s.voters[p].(isProxy := flag)]), s'))
            && (p !in s.voters ==> s' == s.(voters := s.voters[p := Voter(NOBODY, [], 0, 0.0, 0.0, flag)]))
  {
    hide Propagate, Passable;
    if p in s.voters {
      PropagateKeeps(s.(voters := s.voters[p := s.voters[p].(isProxy := flag)]), p, f, {p});
    }
  }

  /** A change of stake keeps every vote and registration. */
  lemma ChangeStakeEffect(s: State, v: Name, delta: int, f: real)
    requires ChangeStake(s, v, delta, f).Some?
    ensures var s', x := ChangeStake(s, v, delta, f).value, if v in s.voters then s.voters[v] else Voter(NOBODY, [], 0, 0.0, 0.0, false);
            && s'.voters.Keys == s.voters.Keys + {v} && SameProducers(s.producers, s'.producers)
            && s'.voters[v].staked == x.staked + delta && s'.voters[v].proxy == x.proxy && s'.voters[v].producers == x.producers
            && s'.voters[v].isProxy == x.isProxy
            && (forall u :: u in s.voters && u != v ==> s'.voters[u] == s.voters[u].(last := s'.voters[u].last, proxied := s'.voters[u].proxied))
  {
    hide UpdateVotes, Weight;
    var x := if v in s.voters then s.voters[v] else NEW_VOTER;
    var s1 := s.(voters := s.voters[v := x.(staked := x.staked + delta)]);
    if x.producers != [] || x.proxy != NOBODY {
      UpdateRecords(s1, v, x.proxy, x.producers, false, f);
    }
  }

  // ----- registered producers over runs -----

  /** What the last registration that took effect said: whether a producer is active. */
  ghost function Registered(actions: seq<(Action, real)>, p: Name): Option<bool> {
    if actions == [] then None
    else
      var rest := Registered(actions[..|actions| - 1], p);
      match actions[|actions| - 1].0
      case RegisterProducer(q) => if q == p then Some(true) else rest
      case UnregisterProducer(q) => if q == p && rest.Some? then Some(false) else rest
      case _ => rest
  }

  ghost predicate IsRegistered(s: State, o: Option<bool>, p: Name) {
    (p in s.producers <==> o.Some?) && (p in s.producers ==> s.producers[p].isActive == o.value)
  }

  lemma SameRegistration(s: State, s': State, o: Option<bool>, p: Name)
    requires SameProducers(s.producers, s'.producers) && IsRegistered(s, o, p)
    ensures IsRegistered(s', o, p)
  {
  }

  /** After every run the rows of producers and whether they are active are what the registrations
      said last. */
  lemma {:induction false} RunRegisters(actions: seq<(Action, real)>, p: Name)
    ensures IsRegistered(Run(EMPTY, actions), Registered(actions, p), p)
  {
    hide Step, SameProducers, IsRegistered;
    if actions == [] {
      NobodyRegistered(p);
    } else {
      var n := |actions| - 1;
      RunRegisters(actions[..n], p);
      var (a, f) := actions[n];
      StepRegisters(Run(EMPTY, actions[..n]), actions, p);
    }
  }

  lemma NobodyRegistered(p: Name)
    ensures IsRegistered(EMPTY, None, p)
  {
  }

  lemma StepRegisters(s: State, actions: seq<(Action, real)>, p: Name)
    requires actions != [] && IsRegistered(s, Registered(actions[..|actions| - 1], p), p)
    ensures var (a, f) := actions[|actions| - 1]; IsRegistered(Step(s, a, f), Registered(actions, p), p)
  {
    hide RegProxy, VoteProducer, ChangeStake, SameProducers;
    var (a, f) := actions[|actions| - 1];
    var o := Registered(actions[..|actions| - 1], p);
    match a
    case RegisterProducer(q) =>
    case UnregisterProducer(q) =>
    case RegisterProxy(q, flag) =>
      if RegProxy(s, q, flag, f).Some? {
        RegProxyRegisters(s, q, flag, f);
        SameRegistration(s, RegProxy(s, q, flag, f).value, o, p);
      }
    case Vote(v, proxy, list) =>
      if VoteProducer(s, v, proxy, list, f).Some? {
        VoteRegisters(s, v, proxy, list, f);
        SameRegistration(s, VoteProducer(s, v, proxy, list, f).value, o, p);
      }
    case Stake(v, delta) =>
      if ChangeStake(s, v, delta, f).Some? {
        StakeRegisters(s, v, delta, f);
        SameRegistration(s, ChangeStake(s, v, delta, f).value, o, p);
      }
  }

  lemma RegProxyRegisters(s: State, p: Name, flag: bool, f: real)
    requires RegProxy(s, p, flag, f).Some?
    ensures SameProducers(s.producers, RegProxy(s, p, flag, f).value.producers)
  {
    hide RegProxy;
    RegProxyEffect(s, p, flag, f);
  }

  lemma VoteRegisters(s: State, v: Name, proxy: Name, list: seq<Name>, f: real)
    requires VoteProducer(s, v, proxy, list, f).Some?
    ensures SameProducers(s.producers, VoteProducer(s, v, proxy, list, f).value.producers)
  {
    hide VoteProducer, SameProducers, Weight;
    VoteEffect(s, v, proxy, list, f);
  }

  lemma StakeRegisters(s: State, v: Name, delta: int, f: real)
    requires ChangeStake(s, v, delta, f).Some?
    ensures SameProducers(s.producers, ChangeStake(s, v, delta, f).value.producers)
  {
    hide ChangeStake, SameProducers;
    ChangeStakeEffect(s, v, delta, f);
  }

  /** Registering and unregistering keep the votes a producer has. */
  lemma RegistrationKeepsVotes(s: State, p: Name, q: Name)
    ensures q in s.producers ==> q in RegProducer(s, p).producers && RegProducer(s, p).producers[q].totalVotes == s.producers[q].totalVotes
    ensures p !in s.producers ==> RegProducer(s, p).producers[p] == Producer(0.0, true)
    ensures UnregProd(s, p).Some? <==> p in s.producers
    ensures UnregProd(s, p).Some? && q in s.producers ==>
              q in UnregProd(s, p).value.producers && UnregProd(s, p).value.producers[q].totalVotes == s.producers[q].totalVotes
  {
  }
}
