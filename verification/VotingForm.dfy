/** What every voting action keeps whatever the weights are: proxies exist and use no proxy, lists
    are short and sorted, and no chain of proxies is a cycle, so that passing on a change ends.
    Listed producers have rows except after a vote with a negative weight, which is recorded
    unchecked. */
module VotingForm {
  import opened Sums
  import opened Voting
  import opened VotingRuns

  ghost predicate Form(s: State) {
    Formed(s) && Acyclic(s.voters)
  }

  lemma ShapeKeepsFormed(s: State, s': State, v: Name, f: real, r: map<Name, nat>)
    requires Formed(s) && Ranked(s.voters, r) && v in s.voters && Shape(s, s', v, f, r)
    ensures Formed(s') && Ranked(s'.voters, r) && SameLists(s, s')
  {
    hide Sorted, Weight;
  }

  /** The same voters list the same producers, and no producer comes or goes. */
  ghost predicate SameLists(s: State, s': State) {
    && s'.voters.Keys == s.voters.Keys && s'.producers.Keys == s.producers.Keys
    && forall u :: u in s.voters ==> s'.voters[u].producers == s.voters[u].producers
  }

  lemma ProxiedKeepsFormed(s: State, q: Name, d: real, r: map<Name, nat>)
    requires q in s.voters && Formed(s) && Ranked(s.voters, r)
    ensures Formed(ChangeProxied(s, q, d)) && Ranked(ChangeProxied(s, q, d).voters, r) && SameLists(s, ChangeProxied(s, q, d))
  {
    hide Sorted;
  }

  /** Passing on a change from `q`, after its delegated weight changed. */
  lemma PassOnKeepsFormed(s: State, q: Name, d: real, f: real, r: map<Name, nat>)
    requires q in s.voters && Formed(s) && Ranked(s.voters, r) && PassOn(ChangeProxied(s, q, d), q, f).Some?
    ensures var s' := PassOn(ChangeProxied(s, q, d), q, f).value;
            Formed(s') && Ranked(s'.voters, r) && SameLists(s, s')
  {
    hide Formed, Ranked, Shape, Propagate, Passable, SameLists, ChangeProxied;
    var s1 := ChangeProxied(s, q, d);
    ProxiedKeepsFormed(s, q, d, r);
    ProxiedKeys(s, q, d);
    PropagateShape(s1, q, f, {q}, r);
    ShapeKeepsFormed(s1, Propagate(s1, q, f, {q}), q, f, r);
    SameListsThrough(s, s1, Propagate(s1, q, f, {q}));
  }

  lemma SameListsThrough(s: State, s': State, s'': State)
    requires SameLists(s, s') && SameLists(s', s'')
    ensures SameLists(s, s'')
  {
  }

  lemma SameListsItself(s: State, n: int)
    ensures SameLists(s, s.(activated := n))
  {
  }

  lemma LeaveKeepsFormed(s: State, v: Name, f: real, r: map<Name, nat>)
    requires Formed(s) && Ranked(s.voters, r) && v in s.voters && LeaveProxy(s, v, f).Some?
    ensures var s' := LeaveProxy(s, v, f).value; Formed(s') && Ranked(s'.voters, r) && SameLists(s, s') && SameProxies(s, s')
  {
    hide Formed, Ranked, PassOn, SameLists, SameProxies, ChangeProxied;
    var x := s.voters[v];
    SameProxiesItself(s, s.activated);
    SameListsItself(s, s.activated);
    if x.last > 0.0 && x.proxy != NOBODY {
      PassOnKeepsFormed(s, x.proxy, -x.last, f, r);
      PassOnKeepsProxies(s, x.proxy, -x.last, f, r);
    }
  }

  /** No voter changes its proxy or its registration as one. */
  ghost predicate SameProxies(s: State, s': State) {
    && s'.voters.Keys == s.voters.Keys
    && forall u :: u in s.voters ==> s'.voters[u].proxy == s.voters[u].proxy && s'.voters[u].isProxy == s.voters[u].isProxy
  }

  lemma SameProxiesItself(s: State, n: int)
    ensures SameProxies(s, s.(activated := n))
  {
  }

  lemma PassOnKeepsProxies(s: State, q: Name, d: real, f: real, r: map<Name, nat>)
    requires q in s.voters && Ranked(s.voters, r) && PassOn(ChangeProxied(s, q, d), q, f).Some?
    ensures SameProxies(s, PassOn(ChangeProxied(s, q, d), q, f).value)
  {
    hide Propagate, Passable, Weight, Shape;
    var s1 := ChangeProxied(s, q, d);
    PropagateShape(s1, q, f, {q}, r);
    ShapeKeepsProxies(s1, Propagate(s1, q, f, {q}), q, f, r);
  }

  lemma ShapeKeepsProxies(s: State, s': State, v: Name, f: real, r: map<Name, nat>)
    requires Ranked(s.voters, r) && v in s.voters && Shape(s, s', v, f, r)
    ensures SameProxies(s, s')
  {
    hide Weight;
  }

  /** A rank with the new proxy below the voter. */
  lemma RankBelowVoter(s: State, v: Name, proxy: Name, w: real, voting: bool, f: real, r: map<Name, nat>) returns (r': map<Name, nat>)
    requires Formed(s) && Ranked(s.voters, r) && v in s.voters && proxy != NOBODY && proxy != v
    requires JoinProxy(s, proxy, w, voting, f).Some? && (voting || proxy == s.voters[v].proxy)
    ensures proxy in s.voters && Ranked(s.voters, r') && r'[proxy] < r'[v]
  {
    hide Sorted, PassOn;
    if voting {
      r' := LiftedRank(s.voters, r, proxy);
    } else {
      r' := r;
    }
  }

  lemma JoinKeepsFormed(s: State, proxy: Name, w: real, voting: bool, f: real, r: map<Name, nat>)
    requires Formed(s) && Ranked(s.voters, r) && JoinProxy(s, proxy, w, voting, f).Some?
    ensures var s' := JoinProxy(s, proxy, w, voting, f).value; Formed(s') && Ranked(s'.voters, r) && SameLists(s, s')
    ensures SameProxies(s, JoinProxy(s, proxy, w, voting, f).value)
  {
    hide Formed, Ranked, PassOn, SameLists, SameProxies, ChangeProxied;
    SameListsItself(s, s.activated);
    SameProxiesItself(s, s.activated);
    if proxy != NOBODY && w >= 0.0 {
      PassOnKeepsFormed(s, proxy, w, f, r);
      PassOnKeepsProxies(s, proxy, w, f, r);
    }
  }

  lemma CastKeepsFormed(s: State, v: Name, a: real, minus: seq<Name>, w: real, proxy: Name, producers: seq<Name>, r: map<Name, nat>)
    requires Formed(s) && Ranked(s.voters, r) && v in s.voters && VoteIsFormed(s, v, proxy, producers)
    requires proxy != NOBODY ==> proxy in s.voters && r[proxy] < r[v]
    ensures var s' := CastVote(s, v, a, minus, w, proxy, producers);
            && Formed(s') && Ranked(s'.voters, r) && ListsChangeAt(s, s', v, producers)
  {
    hide Found, ApplyDeltas, WeightDelta;
    EmptyIsSorted();
    hide Sorted;
    ApplyDeltasKeys(s.producers, minus, a, if proxy == NOBODY && w >= 0.0 then producers else [], w);
  }

  lemma ApplyDeltasKeys(producers: map<Name, Producer>, minus: seq<Name>, a: real, plus: seq<Name>, w: real)
    ensures ApplyDeltas(producers, minus, a, plus, w).Keys == producers.Keys
  {
  }

  /** One voter has a new list, all others list what they listed. */
  ghost predicate ListsChangeAt(s: State, s': State, v: Name, list: seq<Name>) {
    && s'.voters.Keys == s.voters.Keys && s'.producers.Keys == s.producers.Keys
    && v in s.voters && s'.voters[v].producers == list
    && forall u :: u in s.voters && u != v ==> s'.voters[u].producers == s.voters[u].producers
  }

  lemma ListsChangeAfter(s: State, s1: State, s2: State, v: Name, list: seq<Name>)
    requires SameLists(s, s1) && ListsChangeAt(s1, s2, v, list)
    ensures ListsChangeAt(s, s2, v, list)
  {
  }

  /** The vote checked before the weights moved is still well-formed afterwards. */
  lemma VoteStaysFormed(s: State, s': State, v: Name, proxy: Name, producers: seq<Name>)
    requires VoteIsFormed(s, v, proxy, producers) && SameProxies(s, s')
    ensures VoteIsFormed(s', v, proxy, producers)
  {
    hide Sorted;
  }

  lemma SameProxiesThrough(s: State, s': State, s'': State)
    requires SameProxies(s, s') && SameProxies(s', s'')
    ensures SameProxies(s, s'')
  {
  }

  lemma ActivationKeepsFormed(s: State, n: int, r: map<Name, nat>)
    requires Formed(s)
    ensures Formed(s.(activated := n))
  {
    hide Sorted;
  }

  /** `update_votes` keeps the form of the tables for every weight, and changes one list only. */
  lemma UpdateVotesKeepsForm(s: State, v: Name, proxy: Name, producers: seq<Name>, voting: bool, f: real)
    requires Form(s) && UpdateVotes(s, v, proxy, producers, voting, f).Some?
    requires v in s.voters && (voting || proxy == s.voters[v].proxy)
    ensures var s' := UpdateVotes(s, v, proxy, producers, voting, f).value;
            Form(s') && ListsChangeAt(s, s', v, producers)
  {
    hide Formed, Ranked, LeaveProxy, JoinProxy, CastVote, Weight, SameLists, SameProxies, ListsChangeAt, VoteIsFormed, MayVoteFor;
    KnownVoter(s, v, proxy, producers, voting, f);
    var x := s.voters[v];
    var w := Weight(x, f);
    var s0 := if x.last <= 0.0 then s.(activated := s.activated + x.staked) else s;
    var r :| Ranked(s.voters, r);
    ActivationKeepsFormed(s, s0.activated, r);
    SameListsItself(s, s0.activated);
    SameProxiesItself(s, s0.activated);
    LeaveKeepsFormed(s0, v, f, r);
    var s1 := LeaveProxy(s0, v, f).value;
    SameListsThrough(s, s0, s1);
    SameProxiesThrough(s, s0, s1);
    ProxyStays(s, s1, v);
    VoteParts(s, v, proxy, producers);
    if proxy != NOBODY {
      r := RankBelowVoter(s1, v, proxy, w, voting, f, r);
    }
    JoinKeepsFormed(s1, proxy, w, voting, f, r);
    var s2 := JoinProxy(s1, proxy, w, voting, f).value;
    SameListsThrough(s, s1, s2);
    SameProxiesThrough(s, s1, s2);
    ProxyStays(s1, s2, v);
    VoteStaysFormed(s, s2, v, proxy, producers);
    CastKeepsFormed(s2, v, x.last, OldList(x), w, proxy, producers, r);
    ListsChangeAfter(s, s2, CastVote(s2, v, x.last, OldList(x), w, proxy, producers), v, producers);
  }

  lemma KnownVoter(s: State, v: Name, proxy: Name, producers: seq<Name>, voting: bool, f: real)
    requires UpdateVotes(s, v, proxy, producers, voting, f).Some?
    ensures VoteIsFormed(s, v, proxy, producers)
  {
    hide LeaveProxy, JoinProxy, CastVote, Weight, VoteIsFormed, MayVoteFor;
  }

  lemma VoteParts(s: State, v: Name, proxy: Name, producers: seq<Name>)
    requires VoteIsFormed(s, v, proxy, producers)
    ensures proxy != NOBODY ==> proxy != v
  {
  }

  lemma ProxyStays(s: State, s': State, v: Name)
    requires SameProxies(s, s') && v in s.voters
    ensures s'.voters.Keys == s.voters.Keys && s'.voters[v].proxy == s.voters[v].proxy
  {
  }

  // ----- the other actions -----

  lemma NewVoterKeepsForm(s: State, v: Name, x: Voter)
    requires Form(s) && v !in s.voters && v != NOBODY
    requires x == NEW_VOTER.(staked := x.staked, isProxy := x.isProxy) && x.staked >= 0
    ensures var s' := s.(voters := s.voters[v := x]); Form(s') && ListsGrow(s, s')
  {
    EmptyIsSorted();
    hide Sorted;
    var r :| Ranked(s.voters, r);
    assert Ranked(s.voters[v := x], r[v := 0]);
  }

  /** Known voters list what they listed, new ones nothing, and no producer goes. */
  ghost predicate ListsGrow(s: State, s': State) {
    && s.voters.Keys <= s'.voters.Keys && s.producers.Keys <= s'.producers.Keys
    && forall u :: u in s'.voters ==> s'.voters[u].producers == if u in s.voters then s.voters[u].producers else []
  }

  lemma ChangedVoterKeepsForm(s: State, v: Name, x: Voter, r: map<Name, nat>)
    requires Formed(s) && Ranked(s.voters, r) && v in s.voters && VoterFormed(s, x)
    requires x == s.voters[v].(staked := x.staked, isProxy := x.isProxy)
    ensures var s' := s.(voters := s.voters[v := x]); Formed(s') && Ranked(s'.voters, r) && SameLists(s, s')
  {
    hide Sorted;
  }

  lemma SameListsGrow(s: State, s': State)
    requires SameLists(s, s')
    ensures ListsGrow(s, s')
  {
  }

  lemma RegProxyKeepsForm(s: State, p: Name, flag: bool, f: real)
    requires Form(s) && RegProxy(s, p, flag, f).Some?
    ensures Form(RegProxy(s, p, flag, f).value) && ListsGrow(s, RegProxy(s, p, flag, f).value)
  {
    hide Formed, Ranked, PassOn, ListsGrow, SameLists;
    if p !in s.voters {
      NewVoterKeepsForm(s, p, NEW_VOTER.(isProxy := flag));
    } else {
      var r :| Ranked(s.voters, r);
      FlagKeepsFormed(s, p, flag, r);
      var s1 := s.(voters := s.voters[p := s.voters[p].(isProxy := flag)]);
      FlagPassOnKeepsFormed(s1, p, f, r);
      SameListsThrough(s, s1, PassOn(s1, p, f).value);
      SameListsGrow(s, PassOn(s1, p, f).value);
    }
  }

  lemma FlagKeepsFormed(s: State, p: Name, flag: bool, r: map<Name, nat>)
    requires Formed(s) && Ranked(s.voters, r) && p in s.voters && (flag ==> s.voters[p].proxy == NOBODY)
    ensures var s1 := s.(voters := s.voters[p := s.voters[p].(isProxy := flag)]);
            Formed(s1) && Ranked(s1.voters, r) && SameLists(s, s1)
  {
    hide Sorted;
    ChangedVoterKeepsForm(s, p, s.voters[p].(isProxy := flag), r);
  }

  lemma FlagPassOnKeepsFormed(s: State, p: Name, f: real, r: map<Name, nat>)
    requires p in s.voters && Formed(s) && Ranked(s.voters, r) && PassOn(s, p, f).Some?
    ensures var s' := PassOn(s, p, f).value; Formed(s') && Ranked(s'.voters, r) && SameLists(s, s')
  {
    hide Formed, Ranked, Shape, Propagate, Passable, SameLists;
    PropagateShape(s, p, f, {p}, r);
    ShapeKeepsFormed(s, Propagate(s, p, f, {p}), p, f, r);
  }

  lemma StakeKeepsFormed(s: State, v: Name, staked: int)
    requires Form(s) && v in s.voters && staked >= 0
    ensures var s' := s.(voters := s.voters[v := s.voters[v].(staked := staked)]); Form(s') && SameLists(s, s')
  {
    hide Sorted;
    var r :| Ranked(s.voters, r);
    ChangedVoterKeepsForm(s, v, s.voters[v].(staked := staked), r);
  }

  lemma ChangeStakeKeepsForm(s: State, v: Name, delta: int, f: real)
    requires Form(s) && ChangeStake(s, v, delta, f).Some?
    ensures Form(ChangeStake(s, v, delta, f).value) && ListsGrow(s, ChangeStake(s, v, delta, f).value)
  {
    hide Form, UpdateVotes, ListsGrow, SameLists;
    if v in s.voters {
      var s' := s.(voters := s.voters[v := s.voters[v].(staked := s.voters[v].staked + delta)]);
      StakeKeepsFormed(s, v, s.voters[v].staked + delta);
      SameListsGrow(s, s');
      var x := s'.voters[v];
      if x.producers != [] || x.proxy != NOBODY {
        UpdateVotesKeepsForm(s', v, x.proxy, x.producers, false, f);
        var s'' := UpdateVotes(s', v, x.proxy, x.producers, false, f).value;
        SameAtAll(s', s'', v);
        SameListsThrough(s, s', s'');
        SameListsGrow(s, s'');
      }
    } else {
      NewVoterKeepsForm(s, v, NEW_VOTER.(staked := delta));
      NewVoterHasNoVote(delta);
    }
  }

  lemma SameAtAll(s: State, s': State, v: Name)
    requires v in s.voters && ListsChangeAt(s, s', v, s.voters[v].producers)
    ensures SameLists(s, s')
  {
  }

  lemma ProducerActionsKeepForm(s: State, producers: map<Name, Producer>)
    requires Form(s) && s.producers.Keys <= producers.Keys
    ensures Form(s.(producers := producers)) && ListsGrow(s, s.(producers := producers))
  {
    hide Sorted;
  }

  // ----- every step and every run -----

  /** Every action keeps the form of the tables, with any factor. */
  lemma StepKeepsForm(s: State, a: Action, f: real)
    requires Form(s)
    ensures Form(Step(s, a, f))
    ensures !a.Vote? ==> ListsGrow(s, Step(s, a, f))
  {
    hide Form, RegProxy, UpdateVotes, ChangeStake, ListsGrow;
    NothingGrows(s);
    match a
    case RegisterProducer(p) => ProducerActionsKeepForm(s, RegProducer(s, p).producers);
    case UnregisterProducer(p) =>
      if UnregProd(s, p).Some? {
        ProducerActionsKeepForm(s, UnregProd(s, p).value.producers);
      }
    case RegisterProxy(p, flag) =>
      if RegProxy(s, p, flag, f).Some? {
        RegProxyKeepsForm(s, p, flag, f);
      }
    case Vote(v, proxy, list) =>
      if VoteProducer(s, v, proxy, list, f).Some? {
        VoterIsKnown(s, v, proxy, list, f);
        UpdateVotesKeepsForm(s, v, proxy, list, true, f);
      }
    case Stake(v, delta) =>
      if ChangeStake(s, v, delta, f).Some? {
        ChangeStakeKeepsForm(s, v, delta, f);
      }
  }

  lemma NothingGrows(s: State)
    ensures Form(s) ==> ListsGrow(s, s)
  {
  }

  /** After every run of actions, whatever the factors: proxies exist and use no proxy, lists are
      short and sorted, and chains of proxies end. */
  lemma {:induction false} RunKeepsForm(actions: seq<(Action, real)>)
    ensures Form(Run(EMPTY, actions))
  {
    hide Form, Step;
    if actions == [] {
      EmptyHasForm();
    } else {
      RunKeepsForm(actions[..|actions| - 1]);
      var (a, f) := actions[|actions| - 1];
      StepKeepsForm(Run(EMPTY, actions[..|actions| - 1]), a, f);
    }
  }

  lemma EmptyHasForm()
    ensures Form(EMPTY) && ListsKnown(EMPTY)
  {
    assert Ranked(EMPTY.voters, map[]);
  }

  /** A vote for producers by a voter of negative weight, one of which has no row. */
  ghost predicate Stray(s: State, a: Action, f: real) {
    && a.Vote? && VoteProducer(s, a.voter, a.proxy, a.list, f).Some?
    && a.proxy == NOBODY && a.voter in s.voters && Weight(s.voters[a.voter], f) < 0.0
    && exists p :: p in a.list && p !in s.producers
  }

  /** A step lists a producer that has no row exactly when it is such a vote. */
  lemma StepKeepsListsIff(s: State, a: Action, f: real)
    requires Form(s) && ListsKnown(s)
    ensures ListsKnown(Step(s, a, f)) <==> !Stray(s, a, f)
  {
    hide Form, UpdateVotes, Step;
    StepKeepsForm(s, a, f);
    if a.Vote? {
      VoteKeepsListsIff(s, a, f);
    } else {
      GrowingListsStayKnown(s, Step(s, a, f));
    }
  }

  lemma GrowingListsStayKnown(s: State, s': State)
    requires ListsKnown(s) && ListsGrow(s, s')
    ensures ListsKnown(s')
  {
  }

  lemma VoteKeepsListsIff(s: State, a: Action, f: real)
    requires Form(s) && ListsKnown(s) && a.Vote?
    ensures ListsKnown(Step(s, a, f)) <==> !Stray(s, a, f)
  {
    hide Form, UpdateVotes, ListsChangeAt;
    if VoteProducer(s, a.voter, a.proxy, a.list, f).Some? {
      VoterIsKnown(s, a.voter, a.proxy, a.list, f);
      UpdateVotesKeepsForm(s, a.voter, a.proxy, a.list, true, f);
      var s' := UpdateVotes(s, a.voter, a.proxy, a.list, true, f).value;
      ListIsCheckedUnless(s, a.voter, a.proxy, a.list, f);
      KnownAfterChange(s, s', a.voter, a.list);
    }
  }

  lemma KnownAfterChange(s: State, s': State, v: Name, list: seq<Name>)
    requires ListsKnown(s) && ListsChangeAt(s, s', v, list)
    ensures ListsKnown(s') <==> forall p :: p in list ==> p in s.producers
  {
  }

  /** A successful vote names only producers with rows, unless its weight is negative. */
  lemma ListIsCheckedUnless(s: State, v: Name, proxy: Name, list: seq<Name>, f: real)
    requires Form(s) && v in s.voters && UpdateVotes(s, v, proxy, list, true, f).Some?
    ensures proxy != NOBODY || Weight(s.voters[v], f) >= 0.0 ==> forall p :: p in list ==> p in s.producers
  {
    hide Formed, Ranked, LeaveProxy, JoinProxy, CastVote, Weight, SameLists, SameProxies, Sorted;
    var x := s.voters[v];
    var s0 := if x.last <= 0.0 then s.(activated := s.activated + x.staked) else s;
    var r :| Ranked(s.voters, r);
    ActivationKeepsFormed(s, s0.activated, r);
    SameListsItself(s, s0.activated);
    LeaveKeepsFormed(s0, v, f, r);
    var s1 := LeaveProxy(s0, v, f).value;
    JoinKeepsFormed(s1, proxy, Weight(x, f), true, f, r);
    var s2 := JoinProxy(s1, proxy, Weight(x, f), true, f).value;
    SameListsThrough(s, s0, s1);
    SameListsThrough(s, s1, s2);
    SameListsProducers(s, s2);
  }

  lemma SameListsProducers(s: State, s': State)
    requires SameLists(s, s')
    ensures s'.producers.Keys == s.producers.Keys
  {
  }

  ghost predicate KnownAt(actions: seq<(Action, real)>, k: nat)
    requires k <= |actions|
  {
    ListsKnown(Run(EMPTY, actions[..k]))
  }

  ghost predicate StrayAt(actions: seq<(Action, real)>, k: nat)
    requires k < |actions|
  {
    Stray(Run(EMPTY, actions[..k]), actions[k].0, actions[k].1)
  }

  /** Along a run all listed producers have rows throughout exactly when no vote is stray. */
  lemma {:induction false} RunKeepsListsIff(actions: seq<(Action, real)>)
    ensures (forall k :: 0 <= k <= |actions| ==> KnownAt(actions, k)) <==> (forall k :: 0 <= k < |actions| ==> !StrayAt(actions, k))
  {
    hide ListsKnown, Stray, Step, Form;
    if actions == [] {
      EmptyHasForm();
      assert actions[..0] == [];
    } else {
      var n := |actions| - 1;
      var before := actions[..n];
      RunKeepsListsIff(before);
      RunKeepsForm(before);
      forall k | 0 <= k <= n ensures KnownAt(before, k) <==> KnownAt(actions, k) {
        assert before[..k] == actions[..k];
      }
      forall k | 0 <= k < n ensures StrayAt(before, k) <==> StrayAt(actions, k) {
        assert before[..k] == actions[..k];
      }
      assert actions[..n + 1] == actions && before[..n] == before;
      if KnownAt(before, n) {
        StepKeepsListsIff(Run(EMPTY, before), actions[n].0, actions[n].1);
      }
      assert KnownAt(before, n) ==> (KnownAt(actions, n + 1) <==> !StrayAt(actions, n));
      assert (forall k :: 0 <= k <= n + 1 ==> KnownAt(actions, k)) <==>
             ((forall k :: 0 <= k <= n ==> KnownAt(before, k)) && KnownAt(actions, n + 1));
      assert (forall k :: 0 <= k < n + 1 ==> !StrayAt(actions, k)) <==>
             ((forall k :: 0 <= k < n ==> !StrayAt(before, k)) && !StrayAt(actions, n));
    }
  }
}
