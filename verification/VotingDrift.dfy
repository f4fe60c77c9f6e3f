/** How far one change of weight moves the running totals away from the sums from scratch: not at all
    unless a small change is suppressed on the way, and then by at most one for each total, whatever
    the totals were before. */
module VotingDrift {
  import opened Sums
  import opened Voting
  import opened VotingForm

  /** By how much the total of a producer is off. */
  ghost function Drift(s: State, b: Ballots, p: Name): real
    requires p in s.producers
  {
    s.producers[p].totalVotes - ListSum(b, p)
  }

  /** By how much the weight delegated to a proxy is off. */
  ghost function ProxyDrift(s: State, b: Ballots, q: Name): real
    requires q in s.voters
  {
    s.voters[q].proxied - ProxySum(b, q)
  }

  /** No total drifted by more than `e`. */
  ghost predicate Near(s: State, b: Ballots, s': State, b': Ballots, e: real) {
    && s'.producers.Keys == s.producers.Keys && s'.voters.Keys == s.voters.Keys
    && (forall p :: p in s.producers ==> -e <= Drift(s', b', p) - Drift(s, b, p) <= e)
    && (forall q :: q in s.voters ==> -e <= ProxyDrift(s', b', q) - ProxyDrift(s, b, q) <= e)
  }

  lemma NearThrough(s: State, b: Ballots, s1: State, b1: Ballots, s2: State, b2: Ballots, e: real)
    requires Near(s, b, s1, b1, 0.0) && Near(s1, b1, s2, b2, e)
    ensures Near(s, b, s2, b2, e)
  {
    hide Drift, ProxyDrift;
  }

  lemma NearIgnoresLast(s: State, b: Ballots, s': State, b': Ballots, e: real, v: Name, w: real)
    requires Near(s, b, s', b', e) && v in s'.voters
    ensures Near(s, b, SetLast(s', v, w), b', e)
  {
    hide ListSum, ProxySum;
    var s'' := SetLast(s', v, w);
    forall p | p in s.producers ensures Drift(s'', b', p) == Drift(s', b', p) {
    }
    forall q | q in s.voters ensures ProxyDrift(s'', b', q) == ProxyDrift(s', b', q) {
    }
  }

  /** The ballot of `v` changes and the totals do not. */
  lemma BallotDrifts(s: State, b: Ballots, v: Name, w: real)
    requires v in s.voters && b.Keys == s.voters.Keys && b[v] == BallotOf(s.voters[v]) && Negligible(w - s.voters[v].last)
    ensures Near(s, b, s, b[v := Ballot(s.voters[v].proxy, w, s.voters[v].producers, w)], 1.0)
  {
    hide ListSum, ProxySum;
    var n := Ballot(s.voters[v].proxy, w, s.voters[v].producers, w);
    forall p | p in s.producers ensures -1.0 <= Drift(s, b[v := n], p) - Drift(s, b, p) <= 1.0 {
      ListSumChanges(b, v, n, p);
    }
    forall q | q in s.voters ensures -1.0 <= ProxyDrift(s, b[v := n], q) - ProxyDrift(s, b, q) <= 1.0 {
      ProxySumChanges(b, v, n, q);
    }
  }

  lemma ListedDoesNotDrift(s: State, b: Ballots, v: Name, w: real)
    requires Formed(s) && v in s.voters && b.Keys == s.voters.Keys && b[v] == BallotOf(s.voters[v]) && s.voters[v].proxy == NOBODY
    ensures Near(s, b, ChangeListed(s, v, w - s.voters[v].last), b[v := Ballot(NOBODY, w, s.voters[v].producers, w)], 0.0)
  {
    hide ListSum, ProxySum, VoterFormed;
    var x := s.voters[v];
    var n := Ballot(NOBODY, w, x.producers, w);
    var s' := ChangeListed(s, v, w - x.last);
    forall p | p in s.producers ensures Drift(s', b[v := n], p) == Drift(s, b, p) {
      ListSumChanges(b, v, n, p);
    }
    forall q | q in s.voters ensures ProxyDrift(s', b[v := n], q) == ProxyDrift(s, b, q) {
      ProxySumChanges(b, v, n, q);
    }
  }

  lemma ProxiedDoesNotDrift(s: State, b: Ballots, v: Name, w: real)
    requires v in s.voters && b.Keys == s.voters.Keys && b[v] == BallotOf(s.voters[v])
    requires s.voters[v].proxy in s.voters && s.voters[v].producers == []
    ensures var q := s.voters[v].proxy;
            Near(s, b, ChangeProxied(s, q, w - s.voters[v].last), b[v := Ballot(q, w, [], w)], 0.0)
  {
    hide ListSum, ProxySum;
    var x := s.voters[v];
    var n := Ballot(x.proxy, w, [], w);
    var s' := ChangeProxied(s, x.proxy, w - x.last);
    forall p | p in s.producers ensures Drift(s', b[v := n], p) == Drift(s, b, p) {
      ListSumChanges(b, v, n, p);
    }
    forall q | q in s.voters ensures ProxyDrift(s', b[v := n], q) == ProxyDrift(s, b, q) {
      ProxySumChanges(b, v, n, q);
    }
  }

  // ----- passing on a change -----

  /** What holds on the way: the ballots match the voters, except those further up the chain. */
  ghost predicate OnTheWay(s: State, b: Ballots, pending: set<Name>, v: Name, seen: set<Name>, r: map<Name, nat>) {
    && v in s.voters && v in seen && v !in pending
    && Formed(s) && Ranked(s.voters, r) && b.Keys == s.voters.Keys && UpToDate(b, s.voters, pending)
    && (forall u :: u in pending && u in r ==> r[u] > r[v])
    && (forall u :: u in seen && u in r ==> r[u] >= r[v])
  }

  lemma FormedVoter(s: State, v: Name)
    requires Formed(s) && v in s.voters && s.voters[v].proxy != NOBODY
    ensures s.voters[v].proxy in s.voters && s.voters[v].producers == []
  {
  }

  lemma NoNobody(s: State)
    requires Formed(s)
    ensures NOBODY !in s.voters
  {
  }

  /** The parts that do not speak of ballots. */
  lemma WayParts(s: State, b: Ballots, pending: set<Name>, v: Name, seen: set<Name>, r: map<Name, nat>)
    requires OnTheWay(s, b, pending, v, seen, r)
    ensures v in s.voters && v !in pending && Formed(s) && Ranked(s.voters, r) && b.Keys == s.voters.Keys
    ensures b[v] == BallotOf(s.voters[v])
  {
    hide Formed, Ranked;
  }

  lemma NextOnTheWay(s: State, b: Ballots, pending: set<Name>, v: Name, w: real, seen: set<Name>, r: map<Name, nat>)
    requires OnTheWay(s, b, pending, v, seen, r) && s.voters[v].proxy != NOBODY
    ensures var q := s.voters[v].proxy;
            && q in s.voters && q !in seen && r.Keys == s.voters.Keys && r[q] < r[v]
            && OnTheWay(ChangeProxied(s, q, w - s.voters[v].last), b[v := Ballot(q, w, [], w)], pending + {v}, q, seen + {q}, r)
  {
    hide Formed, Ranked, SameLists;
    FormedVoter(s, v);
    var q := s.voters[v].proxy;
    RanksAreKnown(s.voters, r);
    ProxyIsBelow(s, v, r);
    ProxiedKeepsFormed(s, q, w - s.voters[v].last, r);
  }

  lemma {:induction false} PropagateDrifts(s: State, b: Ballots, pending: set<Name>, v: Name, f: real, seen: set<Name>, r: map<Name, nat>)
    requires OnTheWay(s, b, pending, v, seen, r)
    ensures var s' := Propagate(s, v, f, seen);
            Near(s, b, s', Updated(b, s'.voters, pending), if Suppressed(s, v, f, seen) then 1.0 else 0.0)
    decreases s.voters.Keys - seen
  {
    hide Near, Weight, Updated, Propagate, ChangeProxied, Formed, Ranked, UpToDate;
    var x := s.voters[v];
    var w := Weight(x, f);
    if Negligible(w - x.last) {
      StopsHere(s, b, pending, v, f, seen, r);
    } else if x.proxy == NOBODY {
      ReachesList(s, b, pending, v, f, seen, r);
    } else {
      NextOnTheWay(s, b, pending, v, w, seen, r);
      ProxiedKeys(s, x.proxy, w - x.last);
      var s1, b1 := ChangeProxied(s, x.proxy, w - x.last), b[v := Ballot(x.proxy, w, [], w)];
      PropagateDrifts(s1, b1, pending + {v}, x.proxy, f, seen + {x.proxy}, r);
      GoesUp(s, b, pending, v, f, seen, r, if Suppressed(s1, x.proxy, f, seen + {x.proxy}) then 1.0 else 0.0);
    }
  }

  lemma StopsHere(s: State, b: Ballots, pending: set<Name>, v: Name, f: real, seen: set<Name>, r: map<Name, nat>)
    requires OnTheWay(s, b, pending, v, seen, r) && Negligible(Weight(s.voters[v], f) - s.voters[v].last)
    ensures var s' := Propagate(s, v, f, seen);
            Near(s, b, s', Updated(b, s'.voters, pending), if Suppressed(s, v, f, seen) then 1.0 else 0.0)
  {
    hide Near, Weight, Updated, Shape, Formed, Ranked;
    var x := s.voters[v];
    var w := Weight(x, f);
    var n := Ballot(x.proxy, w, x.producers, w);
    LastShape(s, v, f, r);
    UpdatedAt(b, s, SetLast(s, v, w), pending, v, f, r, n);
    if Suppressed(s, v, f, seen) {
      BallotDrifts(s, b, v, w);
      NearIgnoresLast(s, b, s, b[v := n], 1.0, v, w);
    } else {
      NoNobody(s);
      QuietBallot(s, b, v, w);
      NearIgnoresLast(s, b, s, b[v := n], 0.0, v, w);
    }
  }

  /** A ballot that does not change or goes nowhere. */
  lemma QuietBallot(s: State, b: Ballots, v: Name, w: real)
    requires v in s.voters && b.Keys == s.voters.Keys && b[v] == BallotOf(s.voters[v]) && NOBODY !in s.voters
    requires w == s.voters[v].last || (s.voters[v].proxy == NOBODY && s.voters[v].producers == [])
    ensures Near(s, b, s, b[v := Ballot(s.voters[v].proxy, w, s.voters[v].producers, w)], 0.0)
  {
    hide ListSum, ProxySum;
    var n := Ballot(s.voters[v].proxy, w, s.voters[v].producers, w);
    forall p | p in s.producers ensures Drift(s, b[v := n], p) == Drift(s, b, p) {
      ListSumChanges(b, v, n, p);
    }
    forall q | q in s.voters ensures ProxyDrift(s, b[v := n], q) == ProxyDrift(s, b, q) {
      ProxySumChanges(b, v, n, q);
    }
  }

  lemma ReachesList(s: State, b: Ballots, pending: set<Name>, v: Name, f: real, seen: set<Name>, r: map<Name, nat>)
    requires OnTheWay(s, b, pending, v, seen, r) && s.voters[v].proxy == NOBODY
    requires !Negligible(Weight(s.voters[v], f) - s.voters[v].last)
    ensures var s' := Propagate(s, v, f, seen); Near(s, b, s', Updated(b, s'.voters, pending), 0.0)
  {
    hide Near, Weight, Updated, Shape, Formed, Ranked, AddVotes;
    var x := s.voters[v];
    var w := Weight(x, f);
    var s1 := ChangeListed(s, v, w - x.last);
    ListedShape(s, v, f, r);
    UpdatedAt(b, s, SetLast(s1, v, w), pending, v, f, r, Ballot(NOBODY, w, x.producers, w));
    ListedDoesNotDrift(s, b, v, w);
    NearIgnoresLast(s, b, s1, b[v := Ballot(NOBODY, w, x.producers, w)], 0.0, v, w);
  }

  lemma GoesUp(s: State, b: Ballots, pending: set<Name>, v: Name, f: real, seen: set<Name>, r: map<Name, nat>, e: real)
    requires OnTheWay(s, b, pending, v, seen, r) && s.voters[v].proxy != NOBODY
    requires s.voters[v].proxy in s.voters && s.voters[v].proxy !in seen && !Negligible(Weight(s.voters[v], f) - s.voters[v].last)
    requires var q, w := s.voters[v].proxy, Weight(s.voters[v], f);
             var s1, b1 := ChangeProxied(s, q, w - s.voters[v].last), b[v := Ballot(q, w, [], w)];
             var s2 := Propagate(s1, q, f, seen + {q});
             Near(s1, b1, s2, Updated(b1, s2.voters, pending + {v}), e)
    ensures var s' := Propagate(s, v, f, seen); Near(s, b, s', Updated(b, s'.voters, pending), e)
  {
    hide Near, Weight, Updated, Shape, Formed, Ranked, ChangeProxied, Propagate, OnTheWay, UpToDate;
    WayParts(s, b, pending, v, seen, r);
    var x := s.voters[v];
    var q, w := x.proxy, Weight(x, f);
    NextOnTheWay(s, b, pending, v, w, seen, r);
    ProxiedKeys(s, q, w - x.last);
    WayParts(ChangeProxied(s, q, w - x.last), b[v := Ballot(q, w, [], w)], pending + {v}, q, seen + {q}, r);
    FormedVoter(s, v);
    var s1, b1 := ChangeProxied(s, q, w - x.last), b[v := Ballot(q, w, [], w)];
    var s2 := Propagate(s1, q, f, seen + {q});
    PropagateShape(s1, q, f, seen + {q}, r);
    KeysAfter(s1, s2, q, f, r);
    KeepsOthers(s, q, w - x.last, v);
    UpdatedAbove(b, s, s1, s2, SetLast(s2, v, w), pending, v, f, r, q);
    PropagatePassesOn(s, v, f, seen);
    ProxiedDoesNotDrift(s, b, v, w);
    NearThrough(s, b, s1, b1, s2, Updated(b1, s2.voters, pending + {v}), e);
    NearIgnoresLast(s, b, s2, Updated(b1, s2.voters, pending + {v}), e, v, w);
  }

  /** In tables of the form every run has, however wrong their totals: passing on a change of weight
      moves no total further from the sum from scratch than before, unless a change is suppressed on
      the way, and then by at most one. */
  lemma OneChangeDriftsByOne(s: State, v: Name, f: real)
    requires Form(s) && v in s.voters
    ensures var s' := Propagate(s, v, f, {v});
            Near(s, BallotsOf(s.voters), s', BallotsOf(s'.voters), if Suppressed(s, v, f, {v}) then 1.0 else 0.0)
  {
    hide Near, Weight, Formed, Propagate, Suppressed, Ranked;
    var r :| Ranked(s.voters, r);
    var b := BallotsOf(s.voters);
    RanksAreKnown(s.voters, r);
    PropagateDrifts(s, b, {}, v, f, {v}, r);
    var s' := Propagate(s, v, f, {v});
    assert Updated(b, s'.voters, {}) == BallotsOf(s'.voters);
  }
}
