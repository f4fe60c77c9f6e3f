/** The voting tables of the system contract as an object that its actions change in place. Each
    action is proved to have exactly the effect of the function that describes it: on success the
    tables are those of the function's result, on failure nothing changed. */
module SystemContract {
  import opened Options
  import opened Sums
  import opened Voting
  import opened VotingForm

  // ----- adding up changes in any order -----

  /** A change of weight, and whether the producer is in the new list. */
  datatype Change = Change(amount: real, isNew: bool)

  type Changes = map<Name, Change>

  /** The entry for `p`, added when it is missing. */
  function Get(c: Changes, p: Name): Change {
    if p in c then c[p] else Change(0.0, false)
  }

  function Delta(p: Name, minus: seq<Name>, a: real, plus: seq<Name>, w: real): real {
    (if p in minus then -a else 0.0) + (if p in plus then w else 0.0)
  }

  /** The changes `update_votes` collects: the old list loses `a`, the new list gains `w`. */
  ghost predicate Collected(c: Changes, minus: seq<Name>, a: real, plus: seq<Name>, w: real) {
    && (forall p :: p in c <==> p in minus || p in plus)
    && (forall p :: p in c ==> c[p] == Change(Delta(p, minus, a, plus, w), p in plus))
  }

  ghost function FoundDelta(producers: map<Name, Producer>, p: Name, minus: seq<Name>, a: real, plus: seq<Name>, w: real): real {
    if p in producers then Delta(p, minus, a, plus, w) else 0.0
  }

  ghost function DeltaSum(names: set<Name>, producers: map<Name, Producer>, minus: seq<Name>, a: real, plus: seq<Name>, w: real): real {
    Sum(names, (p: Name) => FoundDelta(producers, p, minus, a, plus, w))
  }

  function Times(a: real, n: nat): real {
    a * n as real
  }

  lemma OneMoreTime(a: real, n: nat)
    ensures Times(a, n + 1) == Times(a, n) + a && Times(a, 0) == 0.0
  {
  }

  lemma SortedInits(names: seq<Name>, i: nat)
    requires Sorted(names) && i < |names|
    ensures names[i] !in names[..i] && Sorted(names[..i]) && names[..i] + [names[i]] == names[..i + 1]
  {
  }

  lemma FoundOneMore(rest: seq<Name>, last: Name, producers: map<Name, Producer>, a: real)
    ensures a * Found(rest + [last], producers) as real ==
              a * Found(rest, producers) as real + (if last in producers then a else 0.0)
  {
    assert (rest + [last])[..|rest|] == rest;
    OneMoreTime(a, Found(rest, producers));
  }

  lemma LessOneMore(names: set<Name>, producers: map<Name, Producer>, rest: seq<Name>, last: Name, a: real, plus: seq<Name>, w: real)
    requires last !in rest && last in names
    ensures DeltaSum(names, producers, rest + [last], a, plus, w) ==
              DeltaSum(names, producers, rest, a, plus, w) - (if last in producers then a else 0.0)
  {
    SumChangesAt(names, (p: Name) => FoundDelta(producers, p, rest, a, plus, w),
                 (p: Name) => FoundDelta(producers, p, rest + [last], a, plus, w), last);
  }

  lemma PlusOneMore(names: set<Name>, producers: map<Name, Producer>, a: real, rest: seq<Name>, last: Name, w: real)
    requires last !in rest && last in names
    ensures DeltaSum(names, producers, [], a, rest + [last], w) ==
              DeltaSum(names, producers, [], a, rest, w) + (if last in producers then w else 0.0)
  {
    SumChangesAt(names, (p: Name) => FoundDelta(producers, p, [], a, rest, w),
                 (p: Name) => FoundDelta(producers, p, [], a, rest + [last], w), last);
  }

  /** Adding the changes of the registered producers one by one, in any order, comes to the
      same as counting the registered producers of each list. */
  lemma {:induction false} DeltaSumIsWeightDelta(names: set<Name>, producers: map<Name, Producer>, minus: seq<Name>, a: real,
                                                 plus: seq<Name>, w: real)
    requires Sorted(minus) && Sorted(plus)
    requires forall p :: p in minus || p in plus ==> p in names
    ensures DeltaSum(names, producers, minus, a, plus, w) == WeightDelta(producers, minus, a, plus, w)
    decreases |minus| + |plus|
  {
    hide Sorted, DeltaSum, Found;
    if minus != [] {
      var n := |minus| - 1;
      SortedInits(minus, n);
      assert minus == minus[..n] + [minus[n]];
      DeltaSumIsWeightDelta(names, producers, minus[..n], a, plus, w);
      LessOneMore(names, producers, minus[..n], minus[n], a, plus, w);
      FoundOneMore(minus[..n], minus[n], producers, a);
    } else if plus != [] {
      var n := |plus| - 1;
      SortedInits(plus, n);
      assert plus == plus[..n] + [plus[n]];
      DeltaSumIsWeightDelta(names, producers, minus, a, plus[..n], w);
      PlusOneMore(names, producers, a, plus[..n], plus[n], w);
      FoundOneMore(plus[..n], plus[n], producers, w);
    } else {
      NoDeltas(names, producers, a, w);
    }
  }

  lemma NoDeltas(names: set<Name>, producers: map<Name, Producer>, a: real, w: real)
    ensures DeltaSum(names, producers, [], a, [], w) == 0.0 == WeightDelta(producers, [], a, [], w)
  {
    SumOfZeros(names, (p: Name) => FoundDelta(producers, p, [], a, [], w));
  }

  // ----- the contract -----

  lemma ListIsSorted(s: State, v: Name)
    requires Formed(s) && v in s.voters
    ensures Sorted(s.voters[v].producers)
  {
  }

  class Contract {
    var voters: map<Name, Voter>
    var producers: map<Name, Producer>
    var totalProducerVoteWeight: real
    var totalActivatedStake: int

    function Votes(): State
      reads this
    {
      State(voters, producers, totalProducerVoteWeight, totalActivatedStake)
    }

    constructor ()
      ensures Votes() == State(map[], map[], 0.0, 0)
    {
      voters, producers := map[], map[];
      totalProducerVoteWeight, totalActivatedStake := 0.0, 0;
    }

    /** Adds `delta` to every producer of a list; fails at one that has no row. */
    method ChangeProducers(names: seq<Name>, delta: real) returns (ok: bool)
      requires Sorted(names)
      modifies this`producers, this`totalProducerVoteWeight
      ensures ok <==> forall p :: p in names ==> p in old(producers)
      ensures ok ==> producers == AddVotes(old(producers), names, delta)
      ensures ok ==> totalProducerVoteWeight == old(totalProducerVoteWeight) + Times(delta, |names|)
    {
      hide Sorted, Times;
      NothingToAdd(producers, delta);
      OneMoreTime(delta, 0);
      for i := 0 to |names|
        invariant producers == AddVotes(old(producers), names[..i], delta)
        invariant totalProducerVoteWeight == old(totalProducerVoteWeight) + Times(delta, i)
        invariant forall k :: 0 <= k < i ==> names[k] in old(producers)
      {
        AddVotesKeys(old(producers), names[..i], delta);
        if names[i] !in producers {
          return false;
        }
        SortedInits(names, i);
        AddVotesToOneMore(old(producers), names[..i], names[i], delta);
        OneMoreTime(delta, i);
        producers := producers[names[i] := producers[names[i]].(totalVotes := producers[names[i]].totalVotes + delta)];
        totalProducerVoteWeight := totalProducerVoteWeight + delta;
      }
      assert names[..|names|] == names;
      ok := true;
    }

    /** `propagate_weight_change`. Without cycles of proxies the recursion ends. */
    method PropagateWeightChange(v: Name, f: real, ghost seen: set<Name>, ghost r: map<Name, nat>) returns (ok: bool)
      requires Formed(Votes()) && Ranked(voters, r) && v in voters && NoneBelow(seen, r, v)
      modifies this`voters, this`producers, this`totalProducerVoteWeight
      ensures ok <==> Passable(old(Votes()), v, f, seen)
      ensures ok ==> Votes() == Propagate(old(Votes()), v, f, seen)
      decreases if v in r then r[v] else 0
    {
      hide Weight, AddVotes, Sorted, Formed, Times, Propagate, ChangeListed, ChangeProxied, Ranked, NoneBelow, Passable, SameLists;
      ghost var s := Votes();
      PassableParts(s, v, f, seen);
      var x := voters[v];
      if x.proxy != NOBODY && x.isProxy {
        return false;
      }
      var newWeight := Weight(x, f);
      var delta := newWeight - x.last;
      if Negligible(delta) {
        PropagateStops(s, v, f, seen);
      } else if x.proxy != NOBODY {
        if x.proxy !in voters {
          return false;
        }
        RankFalls(voters, r, v);
        NotSeenBefore(seen, r, v, x.proxy);
        ProxiedKeepsFormed(s, x.proxy, delta, r);
        PropagatePassesOn(s, v, f, seen);
        ProxiedParts(s, x.proxy, delta);
        voters := voters[x.proxy := voters[x.proxy].(proxied := voters[x.proxy].proxied + delta)];
        ok := PropagateWeightChange(x.proxy, f, seen + {x.proxy}, r);
        if !ok {
          return;
        }
      } else {
        ListIsSorted(s, v);
        PropagateCounts(s, v, f, seen);
        ListedParts(s, v, delta);
        ok := ChangeProducers(x.producers, delta);
        if !ok {
          return;
        }
      }
      voters := voters[v := voters[v].(last := newWeight)];
      ok := true;
    }

    /** Changes the weight delegated to `q` and passes the change on. */
    method Delegate(q: Name, d: real, f: real, ghost r: map<Name, nat>) returns (ok: bool)
      requires Formed(Votes()) && Ranked(voters, r) && q in voters
      modifies this`voters, this`producers, this`totalProducerVoteWeight
      ensures ok <==> PassOn(ChangeProxied(old(Votes()), q, d), q, f).Some?
      ensures ok ==> Votes() == PassOn(ChangeProxied(old(Votes()), q, d), q, f).value
      ensures ok ==> Formed(Votes()) && Ranked(voters, r)
    {
      hide Weight, Formed, Propagate, ChangeProxied, Ranked, Passable, NoneBelow, SameLists;
      ghost var s := Votes();
      ProxiedParts(s, q, d);
      RanksAreKnown(voters, r);
      AloneIsLowest(r, q);
      ProxiedKeepsFormed(s, q, d, r);
      voters := voters[q := voters[q].(proxied := voters[q].proxied + d)];
      ok := PropagateWeightChange(q, f, {q}, r);
      if ok {
        PassOnKeepsFormed(s, q, d, f, r);
      }
    }

    /** The checks at the beginning of `update_votes`. */
    method Validate(v: Name, proxy: Name, list: seq<Name>) returns (ok: bool)
      ensures ok <==> VoteIsFormed(Votes(), v, proxy, list)
    {
      if proxy != NOBODY {
        if list != [] || v == proxy {
          return false;
        }
      } else {
        if |list| > 30 {
          return false;
        }
        var i := 1;
        while i < |list|
          invariant forall k, l :: 0 <= k < l < i && l < |list| ==> list[k] < list[l]
        {
          if list[i - 1] >= list[i] {
            return false;
          }
          i := i + 1;
        }
      }
      return v in voters && (proxy == NOBODY || !voters[v].isProxy);
    }

    /** Collects the changes to the producers of the old and the new list. */
    static method Collect(minus: seq<Name>, a: real, plus: seq<Name>, w: real) returns (c: Changes)
      requires Sorted(minus) && Sorted(plus)
      ensures Collected(c, minus, a, plus, w)
    {
      hide Sorted;
      c := map[];
      for i := 0 to |minus|
        invariant Collected(c, minus[..i], a, [], w)
      {
        SortedInits(minus, i);
        c := c[minus[i] := Change(Get(c, minus[i]).amount - a, false)];
      }
      assert minus[..|minus|] == minus;
      for i := 0 to |plus|
        invariant Collected(c, minus, a, plus[..i], w)
      {
        SortedInits(plus, i);
        c := c[plus[i] := Change(Get(c, plus[i]).amount + w, true)];
      }
      assert plus[..|plus|] == plus;
    }

    /** The final loop of `update_votes`. */
    method Apply(c: Changes, voting: bool, ghost minus: seq<Name>, ghost a: real, ghost plus: seq<Name>, ghost w: real)
      returns (ok: bool)
      requires Collected(c, minus, a, plus, w) && Sorted(minus) && Sorted(plus)
      modifies this`producers, this`totalProducerVoteWeight
      ensures ok <==> MayVoteFor(old(Votes()), plus, voting)
      ensures ok ==> producers == ApplyDeltas(old(producers), minus, a, plus, w)
      ensures ok ==> totalProducerVoteWeight == old(totalProducerVoteWeight) + WeightDelta(old(producers), minus, a, plus, w)
    {
      hide Sorted, DeltaSum;
      ghost var before := producers;
      ghost var done: set<Name> := {};
      var todo := c.Keys;
      NothingDone(before, minus, a, plus, w);
      while todo != {}
        invariant done == c.Keys - todo && todo <= c.Keys
        invariant producers == Partly(before, done, minus, a, plus, w)
        invariant forall p :: p in plus && p in done ==> p in before && (voting ==> before[p].isActive)
        invariant totalProducerVoteWeight == old(totalProducerVoteWeight) + DeltaSum(done, before, minus, a, plus, w)
      {
        var p :| p in todo;
        OneMoreDone(before, done, p, minus, a, plus, w);
        if p in producers {
          if voting && !producers[p].isActive && c[p].isNew {
            return false;
          }
          producers := producers[p := producers[p].(totalVotes := Clamp(producers[p].totalVotes + c[p].amount))];
          totalProducerVoteWeight := totalProducerVoteWeight + c[p].amount;
        } else if c[p].isNew {
          return false;
        }
        todo := todo - {p};
        done := done + {p};
      }
      DeltaSumIsWeightDelta(done, before, minus, a, plus, w);
      AllDone(before, done, minus, a, plus, w);
      ok := true;
    }

    method Restore(s: State)
      modifies this
      ensures Votes() == s
    {
      voters, producers := s.voters, s.producers;
      totalProducerVoteWeight, totalActivatedStake := s.totalWeight, s.activated;
    }

    /** Takes the vote of `v` back from its proxy and gives weight `w` to the new one. */
    method MoveProxied(v: Name, proxy: Name, w: real, voting: bool, f: real, ghost r: map<Name, nat>) returns (ok: bool)
      requires Formed(Votes()) && Ranked(voters, r) && v in voters
      modifies this`voters, this`producers, this`totalProducerVoteWeight
      ensures ok <==> Moved(old(Votes()), v, proxy, w, voting, f).Some?
      ensures ok ==> Votes() == Moved(old(Votes()), v, proxy, w, voting, f).value
    {
      hide Formed, Ranked, PassOn, ChangeProxied;
      var x := voters[v];
      if x.last > 0.0 && x.proxy != NOBODY {
        if x.proxy !in voters {
          return false;
        }
        ok := Delegate(x.proxy, -x.last, f, r);
        if !ok {
          return;
        }
      }
      if proxy != NOBODY {
        if proxy !in voters || (voting && !voters[proxy].isProxy) {
          return false;
        }
        if w >= 0.0 {
          ok := Delegate(proxy, w, f, r);
          return;
        }
      }
      ok := true;
    }

    /** `update_votes`. */
    method Recount(v: Name, proxy: Name, list: seq<Name>, voting: bool, f: real) returns (ok: bool)
      requires Form(Votes())
      modifies this
      ensures ok <==> UpdateVotes(old(Votes()), v, proxy, list, voting, f).Some?
      ensures Votes() == if ok then UpdateVotes(old(Votes()), v, proxy, list, voting, f).value else old(Votes())
    {
      hide Formed, Ranked, Moved, Weight, ApplyDeltas, WeightDelta, MayVoteFor, Sorted, VoteIsFormed, UpdateVotes;
      var saved := Votes();
      ok := Validate(v, proxy, list);
      UpdateVotesParts(saved, v, proxy, list, voting, f);
      if !ok {
        return;
      }
      ghost var r := FormOf(saved, v, proxy, list);
      var x := voters[v];
      if x.last <= 0.0 {
        totalActivatedStake := totalActivatedStake + x.staked;
      }
      ActivationKeepsFormed(saved, totalActivatedStake, r);
      ghost var s0 := Votes();
      var w := Weight(x, f);
      ok := MoveProxied(v, proxy, w, voting, f, r);
      if ok {
        var minus := if x.last > 0.0 && x.proxy == NOBODY then x.producers else [];
        var plus := if proxy == NOBODY && w >= 0.0 then list else [];
        var changes := Collect(minus, x.last, plus, w);
        ok := Apply(changes, voting, minus, x.last, plus, w);
      }
      if ok {
        voters := voters[v := voters[v].(last := w, producers := list, proxy := proxy)];
      } else {
        Restore(saved);
      }
    }

    /** The same, with what it keeps. */
    method Update(v: Name, proxy: Name, list: seq<Name>, voting: bool, f: real) returns (ok: bool)
      requires Form(Votes())
      modifies this
      ensures voting || (v in old(voters) && proxy == old(voters)[v].proxy) ==> Form(Votes())
      ensures ok <==> UpdateVotes(old(Votes()), v, proxy, list, voting, f).Some?
      ensures Votes() == if ok then UpdateVotes(old(Votes()), v, proxy, list, voting, f).value else old(Votes())
    {
      hide Form, UpdateVotes, ListsChangeAt;
      ghost var s := Votes();
      ok := Recount(v, proxy, list, voting, f);
      if ok {
        KnownVoter(s, v, proxy, list, voting, f);
        if voting || proxy == s.voters[v].proxy {
          UpdateVotesKeepsForm(s, v, proxy, list, voting, f);
        }
      }
    }

    method Vote(v: Name, proxy: Name, list: seq<Name>, f: real) returns (ok: bool)
      requires Form(Votes())
      modifies this
      ensures Form(Votes())
      ensures ok <==> VoteProducer(old(Votes()), v, proxy, list, f).Some?
      ensures Votes() == if ok then VoteProducer(old(Votes()), v, proxy, list, f).value else old(Votes())
    {
      ok := Update(v, proxy, list, true, f);
    }

    /** `regproxy`. */
    method RegisterProxy(p: Name, flag: bool, f: real) returns (ok: bool)
      requires Form(Votes())
      modifies this
      ensures Form(Votes())
      ensures ok <==> RegProxy(old(Votes()), p, flag, f).Some?
      ensures Votes() == if ok then RegProxy(old(Votes()), p, flag, f).value else old(Votes())
    {
      hide Formed, Ranked, Propagate, Passable, NoneBelow, SameLists, ListsGrow;
      ghost var s := Votes();
      if p == NOBODY {
        return false;
      }
      if p in voters {
        if flag == voters[p].isProxy || (flag && voters[p].proxy != NOBODY) {
          return false;
        }
        var saved := Votes();
        ghost var r :| Ranked(voters, r);
        FlagKeepsFormed(s, p, flag, r);
        voters := voters[p := voters[p].(isProxy := flag)];
        RanksAreKnown(voters, r);
        AloneIsLowest(r, p);
        ok := PropagateWeightChange(p, f, {p}, r);
        if !ok {
          Restore(saved);
        }
      } else {
        voters := voters[p := NEW_VOTER.(isProxy := flag)];
        ok := true;
      }
      if ok {
        RegProxyKeepsForm(s, p, flag, f);
      }
    }

    /** The end of `changebw`: the stake of `v` changes and its vote is counted again. */
    method StakeChanges(v: Name, delta: int, f: real) returns (ok: bool)
      requires Form(Votes())
      modifies this
      ensures Form(Votes())
      ensures ok <==> ChangeStake(old(Votes()), v, delta, f).Some?
      ensures Votes() == if ok then ChangeStake(old(Votes()), v, delta, f).value else old(Votes())
    {
      hide Form, UpdateVotes, ListsGrow, SameLists;
      var saved := Votes();
      if v !in voters {
        voters := voters[v := NEW_VOTER.(staked := delta)];
      } else {
        voters := voters[v := voters[v].(staked := voters[v].staked + delta)];
      }
      ok := v != NOBODY && voters[v].staked >= 0;
      if ok && (voters[v].producers != [] || voters[v].proxy != NOBODY) {
        StakeKeepsFormed(saved, v, voters[v].staked);
        ok := Update(v, voters[v].proxy, voters[v].producers, false, f);
      }
      if ok {
        ChangeStakeKeepsForm(saved, v, delta, f);
      } else {
        Restore(saved);
      }
    }

    method RegisterProducer(p: Name)
      modifies this`producers
      ensures Votes() == RegProducer(old(Votes()), p)
      ensures old(Form(Votes())) ==> Form(Votes())
    {
      hide Form, ListsGrow;
      if Form(Votes()) {
        ProducerActionsKeepForm(Votes(), RegProducer(Votes(), p).producers);
      }
      if p in producers {
        producers := producers[p := producers[p].(isActive := true)];
      } else {
        producers := producers[p := Producer(0.0, true)];
      }
    }

    method UnregisterProducer(p: Name) returns (ok: bool)
      modifies this`producers
      ensures ok <==> UnregProd(old(Votes()), p).Some?
      ensures Votes() == if ok then UnregProd(old(Votes()), p).value else old(Votes())
      ensures old(Form(Votes())) ==> Form(Votes())
    {
      hide Form, ListsGrow;
      ok := p in producers;
      if ok {
        if Form(Votes()) {
          ProducerActionsKeepForm(Votes(), UnregProd(Votes(), p).value.producers);
        }
        producers := producers[p := producers[p].(isActive := false)];
      }
    }
  }

  /** The effect of `update_votes` on the weights delegated to proxies. */
  ghost function Moved(s: State, v: Name, proxy: Name, w: real, voting: bool, f: real): (r: Option<State>)
    requires v in s.voters
    ensures r.Some? ==> v in r.value.voters
  {
    var left := LeaveProxy(s, v, f);
    if left.None? then None else JoinProxy(left.value, proxy, w, voting, f)
  }

  ghost function NewList(proxy: Name, w: real, list: seq<Name>): seq<Name> {
    if proxy == NOBODY && w >= 0.0 then list else []
  }

  ghost function Begun(s: State, v: Name): State
    requires v in s.voters
  {
    if s.voters[v].last <= 0.0 then s.(activated := s.activated + s.voters[v].staked) else s
  }

  lemma UpdateVotesParts(s: State, v: Name, proxy: Name, list: seq<Name>, voting: bool, f: real)
    ensures !VoteIsFormed(s, v, proxy, list) ==> UpdateVotes(s, v, proxy, list, voting, f).None?
    ensures VoteIsFormed(s, v, proxy, list) ==>
              var x := s.voters[v];
              var w := Weight(x, f);
              var moved := Moved(Begun(s, v), v, proxy, w, voting, f);
              UpdateVotes(s, v, proxy, list, voting, f) ==
                if moved.None? || !MayVoteFor(moved.value, NewList(proxy, w, list), voting) then None
                else Some(CastVote(moved.value, v, x.last, OldList(x), w, proxy, list))
  {
    hide LeaveProxy, JoinProxy, CastVote, Weight, Sorted;
  }

  lemma FormOf(s: State, v: Name, proxy: Name, list: seq<Name>) returns (r: map<Name, nat>)
    requires Form(s) && VoteIsFormed(s, v, proxy, list)
    ensures v in s.voters && Ranked(s.voters, r)
    ensures Sorted(s.voters[v].producers) && Sorted([]) && (proxy == NOBODY ==> Sorted(list))
  {
    r :| Ranked(s.voters, r);
  }

  /** The producers once the changes to those in `done` were made. */
  ghost function Partly(producers: map<Name, Producer>, done: set<Name>, minus: seq<Name>, a: real, plus: seq<Name>, w: real)
    : map<Name, Producer>
  {
    map p | p in producers ::
      if p in done then producers[p].(totalVotes := Clamp(producers[p].totalVotes + Delta(p, minus, a, plus, w)))
      else producers[p]
  }

  lemma NothingDone(producers: map<Name, Producer>, minus: seq<Name>, a: real, plus: seq<Name>, w: real)
    ensures Partly(producers, {}, minus, a, plus, w) == producers
    ensures DeltaSum({}, producers, minus, a, plus, w) == 0.0
  {
  }

  lemma OneMoreDone(producers: map<Name, Producer>, done: set<Name>, p: Name, minus: seq<Name>, a: real, plus: seq<Name>, w: real)
    requires p !in done
    ensures var was, will := Partly(producers, done, minus, a, plus, w), Partly(producers, done + {p}, minus, a, plus, w);
            if p in producers then
              p in was && was[p] == producers[p] &&
              will == was[p := was[p].(totalVotes := Clamp(was[p].totalVotes + Delta(p, minus, a, plus, w)))]
            else will == was && p !in was
    ensures DeltaSum(done + {p}, producers, minus, a, plus, w) ==
              DeltaSum(done, producers, minus, a, plus, w) + FoundDelta(producers, p, minus, a, plus, w)
  {
    var f := (p: Name) => FoundDelta(producers, p, minus, a, plus, w);
    SumInsert(done, f, f, p);
  }

  lemma AllDone(producers: map<Name, Producer>, done: set<Name>, minus: seq<Name>, a: real, plus: seq<Name>, w: real)
    requires forall p :: p in done <==> p in minus || p in plus
    ensures Partly(producers, done, minus, a, plus, w) == ApplyDeltas(producers, minus, a, plus, w)
  {
  }

  lemma RankFalls(voters: map<Name, Voter>, r: map<Name, nat>, v: Name)
    requires Ranked(voters, r) && v in voters && voters[v].proxy in voters
    ensures r.Keys == voters.Keys && r[voters[v].proxy] < r[v]
  {
  }

  lemma PassableParts(s: State, v: Name, f: real, seen: set<Name>)
    requires v in s.voters
    ensures var x := s.voters[v];
            var d := Weight(x, f) - x.last;
            Passable(s, v, f, seen) <==>
              && (x.proxy == NOBODY || !x.isProxy)
              && (Negligible(d) ||
                  if x.proxy == NOBODY then forall p :: p in x.producers ==> p in s.producers
                  else x.proxy in s.voters && x.proxy !in seen && Passable(ChangeProxied(s, x.proxy, d), x.proxy, f, seen + {x.proxy}))
  {
  }

  lemma PropagateStops(s: State, v: Name, f: real, seen: set<Name>)
    requires v in s.voters && Negligible(Weight(s.voters[v], f) - s.voters[v].last)
    ensures Propagate(s, v, f, seen) == SetLast(s, v, Weight(s.voters[v], f))
  {
  }

  lemma PropagateCounts(s: State, v: Name, f: real, seen: set<Name>)
    requires v in s.voters && !Negligible(Weight(s.voters[v], f) - s.voters[v].last) && s.voters[v].proxy == NOBODY
    ensures var w := Weight(s.voters[v], f);
            Propagate(s, v, f, seen) == SetLast(ChangeListed(s, v, w - s.voters[v].last), v, w)
  {
  }

  lemma ProxiedParts(s: State, q: Name, d: real)
    requires q in s.voters
    ensures ChangeProxied(s, q, d) == s.(voters := s.voters[q := s.voters[q].(proxied := s.voters[q].proxied + d)])
  {
  }

  lemma ListedParts(s: State, v: Name, d: real)
    requires v in s.voters
    ensures var names := s.voters[v].producers;
            ChangeListed(s, v, d) ==
              s.(producers := AddVotes(s.producers, names, d), totalWeight := s.totalWeight + Times(d, |names|))
  {
  }

  lemma NothingToAdd(producers: map<Name, Producer>, delta: real)
    ensures AddVotes(producers, [], delta) == producers
  {
  }
}
