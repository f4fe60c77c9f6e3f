/** Voting for producers, directly or through proxies. Every voter's weight is added to the
    producers it names, or to the proxy it uses, and the running totals are corrected step by
    step whenever a stake, a vote or a proxy registration changes.

    Weights are real numbers. The factor that turns stake into weight depends on the time and is
    an argument of every action. A failed assertion undoes the whole action and is modelled by
    the result `None`. */
module Voting {
  import opened Options
  import opened Sums

  /** The empty account name. */
  const NOBODY: Name := 0

  datatype Voter = Voter(
    proxy: Name,
    producers: seq<Name>,
    staked: int,
    last: real,
    proxied: real,
    isProxy: bool)

  datatype Producer = Producer(totalVotes: real, isActive: bool)

  datatype State = State(
    voters: map<Name, Voter>,
    producers: map<Name, Producer>,
    totalWeight: real,
    activated: int)

  const NEW_VOTER := Voter(NOBODY, [], 0, 0.0, 0.0, false)

  /** The weight a voter casts: its own stake and, for a proxy, what was delegated to it. */
  function Weight(x: Voter, f: real): real {
    x.staked as real * f + (if x.isProxy then x.proxied else 0.0)
  }

  /** Changes of weight that are not passed on. */
  predicate Negligible(d: real) {
    -1.0 <= d <= 1.0
  }

  function AddVotes(producers: map<Name, Producer>, names: seq<Name>, d: real): map<Name, Producer> {
    map p | p in producers ::
      if p in names then producers[p].(totalVotes := producers[p].totalVotes + d) else producers[p]
  }

  function AddProxied(voters: map<Name, Voter>, q: Name, d: real): (r: map<Name, Voter>)
    requires q in voters
  {
    voters[q := voters[q].(proxied := voters[q].proxied + d)]
  }

  /** The change `d` of a voter's weight reaches the producers it lists. */
  function ChangeListed(s: State, v: Name, d: real): State
    requires v in s.voters
  {
    var names := s.voters[v].producers;
    s.(producers := AddVotes(s.producers, names, d), totalWeight := s.totalWeight + d * |names| as real)
  }

  function ChangeProxied(s: State, q: Name, d: real): State
    requires q in s.voters
  {
    s.(voters := AddProxied(s.voters, q, d))
  }

  function SetLast(s: State, v: Name, w: real): State
    requires v in s.voters
  {
    s.(voters := s.voters[v := s.voters[v].(last := w)])
  }

  /** `propagate_weight_change`. The accounts already visited are recorded in `seen`; the source
      relies on chains of proxies having no cycle. */
  function Propagate(s: State, v: Name, f: real, seen: set<Name>): (s': State)
    requires v in s.voters
    ensures s'.voters.Keys == s.voters.Keys
    decreases s.voters.Keys - seen
  {
    var x := s.voters[v];
    var w := Weight(x, f);
    var d := w - x.last;
    if Negligible(d) then SetLast(s, v, w)
    else if x.proxy == NOBODY then SetLast(ChangeListed(s, v, d), v, w)
    else if x.proxy in s.voters && x.proxy !in seen then
      SetLast(Propagate(ChangeProxied(s, x.proxy, d), x.proxy, f, seen + {x.proxy}), v, w)
    else SetLast(s, v, w)
  }

  /** No assertion of `propagate_weight_change` fails on the way: no proxy uses a proxy, and the
      rows of proxies and listed producers are found. */
  predicate Passable(s: State, v: Name, f: real, seen: set<Name>)
    requires v in s.voters
    decreases s.voters.Keys - seen
  {
    var x := s.voters[v];
    var d := Weight(x, f) - x.last;
    && (x.proxy == NOBODY || !x.isProxy)
    && (Negligible(d) ||
        if x.proxy == NOBODY then forall p :: p in x.producers ==> p in s.producers
        else x.proxy in s.voters && x.proxy !in seen && Passable(ChangeProxied(s, x.proxy, d), x.proxy, f, seen + {x.proxy}))
  }

  function PassOn(s: State, v: Name, f: real): Option<State>
    requires v in s.voters
  {
    if Passable(s, v, f, {v}) then Some(Propagate(s, v, f, {v})) else None
  }

  // ----- what the running totals stand for -----

  /** What a voter's vote adds to the totals: an amount to its proxy and an amount to each
      producer it lists. */
  datatype Ballot = Ballot(proxy: Name, toProxy: real, list: seq<Name>, toList: real)

  type Ballots = map<Name, Ballot>

  ghost function BallotOf(x: Voter): Ballot {
    Ballot(x.proxy, x.last, x.producers, x.last)
  }

  ghost function ListShare(b: Ballots, u: Name, p: Name): real {
    if u in b && p in b[u].list then b[u].toList else 0.0
  }

  ghost function ProxyShare(b: Ballots, u: Name, q: Name): real {
    if u in b && b[u].proxy == q then b[u].toProxy else 0.0
  }

  /** The votes for `p`, added up from scratch. */
  ghost function ListSum(b: Ballots, p: Name): real {
    Sum(b.Keys, (u: Name) => ListShare(b, u, p))
  }

  /** The weight delegated to `q`, added up from scratch. */
  ghost function ProxySum(b: Ballots, q: Name): real {
    Sum(b.Keys, (u: Name) => ProxyShare(b, u, q))
  }

  ghost function VoteTotal(producers: map<Name, Producer>): real {
    Sum(producers.Keys, (p: Name) => if p in producers then producers[p].totalVotes else 0.0)
  }

  lemma ListSumChanges(b: Ballots, v: Name, n: Ballot, p: Name)
    requires v in b
    ensures ListSum(b[v := n], p) == ListSum(b, p) - ListShare(b, v, p) + (if p in n.list then n.toList else 0.0)
  {
    var b' := b[v := n];
    assert b'.Keys == b.Keys;
    SumChangesAt(b.Keys, (u: Name) => ListShare(b, u, p), (u: Name) => ListShare(b', u, p), v);
  }

  lemma ProxySumChanges(b: Ballots, v: Name, n: Ballot, q: Name)
    requires v in b
    ensures ProxySum(b[v := n], q) == ProxySum(b, q) - ProxyShare(b, v, q) + (if n.proxy == q then n.toProxy else 0.0)
  {
    var b' := b[v := n];
    assert b'.Keys == b.Keys;
    SumChangesAt(b.Keys, (u: Name) => ProxyShare(b, u, q), (u: Name) => ProxyShare(b', u, q), v);
  }

  /** The running totals agree with the sums from scratch. */
  ghost predicate Tallied(s: State, b: Ballots) {
    && b.Keys == s.voters.Keys
    && (forall p :: p in s.producers ==> s.producers[p].totalVotes == ListSum(b, p))
    && (forall q :: q in s.voters ==> s.voters[q].proxied == ProxySum(b, q))
    && (forall u :: u in b ==> b[u].toProxy >= 0.0 && b[u].toList >= 0.0)
    && s.totalWeight == VoteTotal(s.producers)
  }

  /** Proxies exist and use no proxy themselves, and lists are short and sorted. */
  ghost predicate Formed(s: State) {
    && NOBODY !in s.voters
    && (forall v :: v in s.voters ==> VoterFormed(s, s.voters[v]))
  }

  /** Every listed producer has a row. */
  ghost predicate ListsKnown(s: State) {
    forall v :: v in s.voters ==> forall p :: p in s.voters[v].producers ==> p in s.producers
  }

  /** Both of it: tables refer to existing rows only. */
  ghost predicate WellFormed(s: State) {
    Formed(s) && ListsKnown(s)
  }

  predicate Sorted(names: seq<Name>) {
    forall i, j :: 0 <= i < j < |names| ==> names[i] < names[j]
  }

  ghost predicate VoterFormed(s: State, x: Voter) {
    && x.staked >= 0
    && (x.proxy != NOBODY ==> x.proxy in s.voters && !x.isProxy && x.producers == [])
    && Sorted(x.producers) && |x.producers| <= 30
  }

  ghost predicate VoterOk(s: State, x: Voter) {
    VoterFormed(s, x) && forall p :: p in x.producers ==> p in s.producers
  }

  /** A measure that falls along every use of a proxy. */
  ghost predicate Ranked(voters: map<Name, Voter>, r: map<Name, nat>) {
    && r.Keys == voters.Keys
    && forall v :: v in voters && voters[v].proxy in voters ==> r[voters[v].proxy] < r[v]
  }

  /** Everything but the weights is the same. */
  ghost predicate SameVotes(voters: map<Name, Voter>, voters': map<Name, Voter>) {
    && voters'.Keys == voters.Keys
    && forall v :: v in voters ==>
         voters'[v] == voters[v].(last := voters'[v].last, proxied := voters'[v].proxied)
  }

  /** A change of weight of a voter that matters is too small to be passed on. */
  ghost predicate Suppressed(s: State, v: Name, f: real, seen: set<Name>)
    requires v in s.voters
    decreases s.voters.Keys - seen
  {
    var x := s.voters[v];
    var d := Weight(x, f) - x.last;
    if Negligible(d) then d != 0.0 && (x.proxy != NOBODY || x.producers != [])
    else x.proxy != NOBODY && x.proxy in s.voters && x.proxy !in seen &&
         Suppressed(ChangeProxied(s, x.proxy, d), x.proxy, f, seen + {x.proxy})
  }

  // ----- passing on a change of weight -----

  lemma VoteTotalChanges(producers: map<Name, Producer>, p: Name, n: Producer)
    requires p in producers
    ensures VoteTotal(producers[p := n]) == VoteTotal(producers) - producers[p].totalVotes + n.totalVotes
  {
    var producers' := producers[p := n];
    assert producers'.Keys == producers.Keys;
    SumChangesAt(producers.Keys, (p: Name) => if p in producers then producers[p].totalVotes else 0.0,
                 (p: Name) => if p in producers' then producers'[p].totalVotes else 0.0, p);
  }

  lemma AddVotesToOneMore(producers: map<Name, Producer>, rest: seq<Name>, last: Name, d: real)
    requires last !in rest && last in producers
    ensures var before := AddVotes(producers, rest, d);
            AddVotes(producers, rest + [last], d) == before[last := before[last].(totalVotes := before[last].totalVotes + d)]
  {
  }

  lemma {:induction false} AddVotesTotal(producers: map<Name, Producer>, names: seq<Name>, d: real)
    requires Sorted(names) && forall p :: p in names ==> p in producers
    ensures VoteTotal(AddVotes(producers, names, d)) == VoteTotal(producers) + d * |names| as real
  {
    hide VoteTotal;
    if names == [] {
      assert AddVotes(producers, names, d) == producers;
    } else {
      var rest, last := names[..|names| - 1], names[|names| - 1];
      assert names == rest + [last];
      AddVotesTotal(producers, rest, d);
      AddVotesToOneMore(producers, rest, last, d);
      var before := AddVotes(producers, rest, d);
      VoteTotalChanges(before, last, before[last].(totalVotes := before[last].totalVotes + d));
    }
  }

  /** The ballots once every voter outside `pending` was brought up to date. */
  ghost function Updated(b: Ballots, voters: map<Name, Voter>, pending: set<Name>): Ballots {
    map u | u in b :: if u in pending || u !in voters then b[u] else BallotOf(voters[u])
  }

  ghost predicate UpToDate(b: Ballots, voters: map<Name, Voter>, pending: set<Name>) {
    forall u :: u in voters && u in b && u !in pending ==> b[u] == BallotOf(voters[u])
  }

  lemma TalliedAfterListChange(s: State, b: Ballots, v: Name, w: real)
    requires Tallied(s, b) && WellFormed(s) && v in s.voters && b[v] == BallotOf(s.voters[v])
    requires s.voters[v].proxy == NOBODY && w >= 0.0
    ensures Tallied(ChangeListed(s, v, w - s.voters[v].last), b[v := Ballot(NOBODY, w, s.voters[v].producers, w)])
  {
    hide ListSum, ProxySum, VoteTotal, Sorted;
    var x := s.voters[v];
    var d := w - x.last;
    var n := Ballot(NOBODY, w, x.producers, w);
    forall p | p in s.producers
      ensures AddVotes(s.producers, x.producers, d)[p].totalVotes == ListSum(b[v := n], p)
    {
      ListSumChanges(b, v, n, p);
    }
    forall q | q in s.voters
      ensures s.voters[q].proxied == ProxySum(b[v := n], q)
    {
      ProxySumChanges(b, v, n, q);
    }
    AddVotesTotal(s.producers, x.producers, d);
    hide AddVotes;
  }

  lemma TalliedAfterProxyChange(s: State, b: Ballots, v: Name, n: Ballot, q0: Name)
    requires Tallied(s, b) && v in s.voters && n.toProxy >= 0.0 && n.toList >= 0.0
    requires n.list == b[v].list && (n.toList == b[v].toList || n.list == [])
    requires n.proxy == b[v].proxy == q0 && q0 in s.voters
    ensures Tallied(ChangeProxied(s, q0, n.toProxy - b[v].toProxy), b[v := n])
  {
    hide ListSum, ProxySum, VoteTotal;
    forall p | p in s.producers
      ensures s.producers[p].totalVotes == ListSum(b[v := n], p)
    {
      ListSumChanges(b, v, n, p);
    }
    forall q | q in s.voters
      ensures AddProxied(s.voters, q0, n.toProxy - b[v].toProxy)[q].proxied == ProxySum(b[v := n], q)
    {
      ProxySumChanges(b, v, n, q);
    }
  }

  /** A ballot that adds nothing to any total may change its amounts. */
  lemma TalliedWithoutVotes(s: State, b: Ballots, v: Name, n: Ballot)
    requires Tallied(s, b) && WellFormed(s) && v in s.voters
    requires b[v].proxy == n.proxy == NOBODY && b[v].list == n.list == [] && n.toProxy >= 0.0 && n.toList >= 0.0
    ensures Tallied(s, b[v := n])
  {
    hide ListSum, ProxySum, VoteTotal;
    forall p | p in s.producers
      ensures s.producers[p].totalVotes == ListSum(b[v := n], p)
    {
      ListSumChanges(b, v, n, p);
    }
    forall q | q in s.voters
      ensures s.voters[q].proxied == ProxySum(b[v := n], q)
    {
      ProxySumChanges(b, v, n, q);
    }
  }

  ghost predicate SameProducers(producers: map<Name, Producer>, producers': map<Name, Producer>) {
    && producers'.Keys == producers.Keys
    && forall p :: p in producers ==> producers'[p].isActive == producers[p].isActive
  }

  /** What passing on a change does not touch: votes, registrations, and every account that the
      chain of proxies from `v` on does not reach. */
  ghost predicate Shape(s: State, s': State, v: Name, f: real, r: map<Name, nat>)
    requires Ranked(s.voters, r) && v in s.voters
  {
    && SameVotes(s.voters, s'.voters)
    && SameProducers(s.producers, s'.producers)
    && s'.activated == s.activated
    && s'.voters[v].proxied == s.voters[v].proxied
    && s'.voters[v].last == Weight(s.voters[v], f)
    && (forall u :: u in s.voters && r[u] >= r[v] && u != v ==> s'.voters[u] == s.voters[u])
  }

  lemma ListedShape(s: State, v: Name, f: real, r: map<Name, nat>)
    requires v in s.voters && Ranked(s.voters, r)
    ensures var w := Weight(s.voters[v], f);
            Shape(s, SetLast(ChangeListed(s, v, w - s.voters[v].last), v, w), v, f, r)
  {
    hide Weight;
  }

  lemma LastShape(s: State, v: Name, f: real, r: map<Name, nat>)
    requires v in s.voters && Ranked(s.voters, r)
    ensures Shape(s, SetLast(s, v, Weight(s.voters[v], f)), v, f, r)
  {
    hide Weight;
  }

  lemma VotesStay(voters: map<Name, Voter>, q: Name, d: real, voters1: map<Name, Voter>, v: Name, w: real)
    requires q in voters && v in voters && SameVotes(AddProxied(voters, q, d), voters1)
    ensures SameVotes(voters, voters1[v := voters1[v].(last := w)])
  {
  }

  lemma OthersStay(voters: map<Name, Voter>, q: Name, d: real, voters1: map<Name, Voter>, v: Name, w: real, r: map<Name, nat>, u: Name)
    requires q in voters && v in voters && r.Keys == voters.Keys && r[q] < r[v] && voters1.Keys == voters.Keys
    requires forall x :: x in voters && r[x] >= r[q] && x != q ==> voters1[x] == AddProxied(voters, q, d)[x]
    requires u in voters && r[u] >= r[v]
    ensures u != v ==> voters1[v := voters1[v].(last := w)][u] == voters[u]
    ensures voters1[v].proxied == voters[v].proxied
  {
  }

  lemma ProxiedShape(s: State, v: Name, q: Name, d: real, f: real, r: map<Name, nat>, s1: State)
    requires v in s.voters && q in s.voters && q != v && Ranked(s.voters, r) && s.voters[v].proxy == q
    requires Ranked(ChangeProxied(s, q, d).voters, r) && Shape(ChangeProxied(s, q, d), s1, q, f, r)
    ensures Shape(s, SetLast(s1, v, Weight(s.voters[v], f)), v, f, r)
  {
    hide Weight, SameVotes, SameProducers;
    var w := Weight(s.voters[v], f);
    VotesAreKnown(AddProxied(s.voters, q, d), s1.voters);
    VotesStay(s.voters, q, d, s1.voters, v, w);
    forall u | u in s.voters && r[u] >= r[v]
      ensures u != v ==> SetLast(s1, v, w).voters[u] == s.voters[u]
      ensures s1.voters[v].proxied == s.voters[v].proxied
    {
      OthersStay(s.voters, q, d, s1.voters, v, w, r, u);
    }
    assert r[v] >= r[v];
  }

  lemma VotesAreKnown(voters: map<Name, Voter>, voters': map<Name, Voter>)
    requires SameVotes(voters, voters')
    ensures voters'.Keys == voters.Keys
  {
  }

  lemma {:induction false} PropagateShape(s: State, v: Name, f: real, seen: set<Name>, r: map<Name, nat>)
    requires v in s.voters && Ranked(s.voters, r)
    ensures Shape(s, Propagate(s, v, f, seen), v, f, r)
    decreases s.voters.Keys - seen
  {
    hide Weight, Shape, SetLast, ChangeListed;
    var x := s.voters[v];
    var d := Weight(x, f) - x.last;
    LastShape(s, v, f, r);
    ListedShape(s, v, f, r);
    if !Negligible(d) && x.proxy != NOBODY && x.proxy in s.voters && x.proxy !in seen {
      var s1 := ChangeProxied(s, x.proxy, d);
      PropagateShape(s1, x.proxy, f, seen + {x.proxy}, r);
      ProxiedShape(s, v, x.proxy, d, f, r, Propagate(s1, x.proxy, f, seen + {x.proxy}));
    }
  }

  lemma NonNegativeProduct(n: int, f: real)
    requires n >= 0 && f >= 0.0
    ensures n as real * f >= 0.0
  {
  }

  lemma WeightIsNonNegative(s: State, b: Ballots, v: Name, f: real)
    requires Tallied(s, b) && WellFormed(s) && v in s.voters && f >= 0.0
    ensures s.voters[v].proxied >= 0.0 && Weight(s.voters[v], f) >= 0.0
  {
    hide Sorted, ListSum, ProxySum, VoteTotal;
    ProxySumIsNonNegative(b, v);
    NonNegativeProduct(s.voters[v].staked, f);
  }

  lemma ProxySumIsNonNegative(b: Ballots, q: Name)
    requires forall u :: u in b ==> b[u].toProxy >= 0.0
    ensures ProxySum(b, q) >= 0.0
  {
    SumIsNonNegative(b.Keys, (u: Name) => ProxyShare(b, u, q));
  }

  /** The conditions under which a change of weight of `v` is passed on. */
  ghost predicate Ready(s: State, b: Ballots, pending: set<Name>, v: Name, f: real, seen: set<Name>, r: map<Name, nat>) {
    && v in s.voters && f >= 0.0 && v in seen && v !in pending
    && WellFormed(s) && Ranked(s.voters, r) && Tallied(s, b) && UpToDate(b, s.voters, pending)
    && (forall u :: u in pending && u in r ==> r[u] > r[v])
    && (forall u :: u in seen && u in r ==> r[u] >= r[v])
  }

  lemma ChangeProxiedShape(s: State, q: Name, d: real, r: map<Name, nat>)
    requires q in s.voters && WellFormed(s) && Ranked(s.voters, r)
    ensures WellFormed(ChangeProxied(s, q, d)) && Ranked(ChangeProxied(s, q, d).voters, r)
    ensures forall u :: u in s.voters ==> BallotOf(ChangeProxied(s, q, d).voters[u]) == BallotOf(s.voters[u])
  {
    hide Sorted;
  }

  lemma PassedToProxy(s: State, b: Ballots, pending: set<Name>, v: Name, f: real, seen: set<Name>, r: map<Name, nat>)
    requires Ready(s, b, pending, v, f, seen, r) && s.voters[v].proxy != NOBODY
    ensures var x := s.voters[v];
            var w := Weight(x, f);
            && x.proxy in s.voters && x.proxy !in seen
            && Ready(ChangeProxied(s, x.proxy, w - x.last), b[v := Ballot(x.proxy, w, [], w)],
                     pending + {v}, x.proxy, f, seen + {x.proxy}, r)
  {
    hide Tallied, Weight, BallotOf, Sorted, ChangeProxied;
    var x := s.voters[v];
    var w := Weight(x, f);
    TalliedKeys(s, b);
    WeightIsNonNegative(s, b, v, f);
    BallotParts(x);
    TalliedAfterProxyChange(s, b, v, Ballot(x.proxy, w, [], w), x.proxy);
    ChangeProxiedShape(s, x.proxy, w - x.last, r);
    hide WellFormed, VoterOk;
  }

  lemma BallotParts(x: Voter)
    ensures BallotOf(x) == Ballot(x.proxy, x.last, x.producers, x.last)
  {
  }

  lemma TalliedKeys(s: State, b: Ballots)
    requires Tallied(s, b)
    ensures b.Keys == s.voters.Keys
  {
  }

  lemma TalliedIgnoresLast(s: State, b: Ballots, v: Name, w: real)
    requires Tallied(s, b) && v in s.voters
    ensures Tallied(SetLast(s, v, w), b)
  {
    hide ListSum, ProxySum, VoteTotal;
  }

  lemma UpdatedAt(b: Ballots, s: State, s': State, pending: set<Name>, v: Name, f: real, r: map<Name, nat>, n: Ballot)
    requires Ranked(s.voters, r) && v in s.voters && Shape(s, s', v, f, r) && b.Keys == s.voters.Keys
    requires UpToDate(b, s.voters, pending) && v !in pending && n == BallotOf(s'.voters[v])
    requires forall u :: u in s.voters && u != v ==> s'.voters[u] == s.voters[u]
    ensures Updated(b, s'.voters, pending) == b[v := n]
  {
  }

  lemma UpdatedAbove(b: Ballots, s: State, s1: State, s2: State, s': State, pending: set<Name>, v: Name, f: real,
                     r: map<Name, nat>, q: Name)
    requires Ranked(s.voters, r) && v in s.voters && q in s.voters && r[q] < r[v] && b.Keys == s.voters.Keys
    requires Ranked(s1.voters, r) && Shape(s1, s2, q, f, r) && s1.voters.Keys == s.voters.Keys
    requires s1.voters[v] == s.voters[v] && s' == SetLast(s2, v, Weight(s.voters[v], f)) && v !in pending
    ensures var w := Weight(s.voters[v], f);
            var n := Ballot(s.voters[v].proxy, w, s.voters[v].producers, w);
            Updated(b, s'.voters, pending) == Updated(b[v := n], s2.voters, pending + {v})
  {
    hide Weight, Shape, Ranked, SameVotes;
    ShapeAt(s1, s2, q, f, r, v);
  }

  lemma ShapeAt(s: State, s': State, v: Name, f: real, r: map<Name, nat>, u: Name)
    requires v in s.voters && Ranked(s.voters, r) && Shape(s, s', v, f, r) && u in s.voters
    ensures s'.voters.Keys == s.voters.Keys
    ensures s'.voters[u] == s.voters[u].(last := s'.voters[u].last, proxied := s'.voters[u].proxied)
  {
    hide Weight, Ranked, SameProducers;
  }

  /** Unless a change that matters is suppressed, the totals stay equal to the sums from scratch. */
  lemma {:induction false} PropagateKeepsTallies(s: State, b: Ballots, pending: set<Name>, v: Name, f: real,
                                                 seen: set<Name>, r: map<Name, nat>)
    requires Ready(s, b, pending, v, f, seen, r) && !Suppressed(s, v, f, seen)
    ensures var s' := Propagate(s, v, f, seen); Tallied(s', Updated(b, s'.voters, pending))
    decreases s.voters.Keys - seen
  {
    hide Tallied, Weight, BallotOf, Sorted, ChangeProxied, SetLast, WellFormed, Updated, Shape, ChangeListed;
    var x := s.voters[v];
    var w := Weight(x, f);
    var d := w - x.last;
    TalliedKeys(s, b);
    if Negligible(d) {
      NegligibleKeepsTallies(s, b, pending, v, f, seen, r);
    } else if x.proxy == NOBODY {
      ListedKeepsTallies(s, b, pending, v, f, seen, r);
    } else {
      PassedToProxy(s, b, pending, v, f, seen, r);
      var s1 := ChangeProxied(s, x.proxy, d);
      var b1 := b[v := Ballot(x.proxy, w, [], w)];
      PropagateKeepsTallies(s1, b1, pending + {v}, x.proxy, f, seen + {x.proxy}, r);
      var s2 := Propagate(s1, x.proxy, f, seen + {x.proxy});
      PropagateShape(s1, x.proxy, f, seen + {x.proxy}, r);
      TalliedIgnoresLast(s2, Updated(b1, s2.voters, pending + {v}), v, w);
      ProxyUserListsNone(s, v);
      KeepsOthers(s, x.proxy, d, v);
      UpdatedAbove(b, s, s1, s2, SetLast(s2, v, w), pending, v, f, r, x.proxy);
    }
  }

  lemma KeepsOthers(s: State, q: Name, d: real, v: Name)
    requires q in s.voters && v in s.voters && v != q
    ensures ChangeProxied(s, q, d).voters[v] == s.voters[v] && ChangeProxied(s, q, d).voters.Keys == s.voters.Keys
  {
  }

  lemma ProxyUserListsNone(s: State, v: Name)
    requires WellFormed(s) && v in s.voters && s.voters[v].proxy != NOBODY
    ensures s.voters[v].producers == []
  {
  }

  lemma NegligibleKeepsTallies(s: State, b: Ballots, pending: set<Name>, v: Name, f: real, seen: set<Name>, r: map<Name, nat>)
    requires Ready(s, b, pending, v, f, seen, r) && !Suppressed(s, v, f, seen)
    requires Negligible(Weight(s.voters[v], f) - s.voters[v].last)
    ensures var s' := Propagate(s, v, f, seen); Tallied(s', Updated(b, s'.voters, pending))
  {
    hide Tallied, Weight, Sorted;
    var x := s.voters[v];
    var w := Weight(x, f);
    TalliedKeys(s, b);
    WeightIsNonNegative(s, b, v, f);
    LastShape(s, v, f, r);
    var s' := SetLast(s, v, w);
    var n := BallotOf(s'.voters[v]);
    UpdatedAt(b, s, s', pending, v, f, r, n);
    if w == x.last {
      assert b[v := n] == b;
      TalliedIgnoresLast(s, b, v, w);
    } else {
      TalliedWithoutVotes(s, b, v, n);
      TalliedIgnoresLast(s, b[v := n], v, w);
    }
  }

  lemma ListedKeepsTallies(s: State, b: Ballots, pending: set<Name>, v: Name, f: real, seen: set<Name>, r: map<Name, nat>)
    requires Ready(s, b, pending, v, f, seen, r) && s.voters[v].proxy == NOBODY
    requires !Negligible(Weight(s.voters[v], f) - s.voters[v].last)
    ensures var s' := Propagate(s, v, f, seen); Tallied(s', Updated(b, s'.voters, pending))
  {
    hide Tallied, Weight, Sorted, AddVotes;
    var x := s.voters[v];
    var w := Weight(x, f);
    TalliedKeys(s, b);
    WeightIsNonNegative(s, b, v, f);
    TalliedAfterListChange(s, b, v, w);
    var s1 := ChangeListed(s, v, w - x.last);
    var b1 := b[v := Ballot(NOBODY, w, x.producers, w)];
    TalliedIgnoresLast(s1, b1, v, w);
    ListedShape(s, v, f, r);
    UpdatedAt(b, s, SetLast(s1, v, w), pending, v, f, r, Ballot(NOBODY, w, x.producers, w));
  }

  // ----- no assertion fails in well-formed tables -----

  /** No visited account is below `v`. */
  ghost predicate NoneBelow(seen: set<Name>, r: map<Name, nat>, v: Name) {
    v in seen && v in r && forall u :: u in seen && u in r ==> r[u] >= r[v]
  }

  lemma NotSeenBefore(seen: set<Name>, r: map<Name, nat>, v: Name, q: Name)
    requires NoneBelow(seen, r, v) && q in r && v in r && r[q] < r[v]
    ensures q !in seen && NoneBelow(seen + {q}, r, q)
  {
  }

  lemma AloneIsLowest(r: map<Name, nat>, v: Name)
    requires v in r
    ensures NoneBelow({v}, r, v)
  {
  }

  lemma VoterIsOk(s: State, v: Name)
    requires WellFormed(s) && v in s.voters
    ensures var x := s.voters[v];
            (x.proxy == NOBODY || !x.isProxy) && forall p :: p in x.producers ==> p in s.producers
  {
  }

  lemma RanksAreKnown(voters: map<Name, Voter>, r: map<Name, nat>)
    requires Ranked(voters, r)
    ensures r.Keys == voters.Keys
  {
  }

  lemma {:induction false} WellFormedPasses(s: State, v: Name, f: real, seen: set<Name>, r: map<Name, nat>)
    requires WellFormed(s) && Ranked(s.voters, r) && v in s.voters && NoneBelow(seen, r, v)
    ensures Passable(s, v, f, seen)
    decreases s.voters.Keys - seen
  {
    hide WellFormed, Ranked, NoneBelow, Weight, ChangeProxied;
    var x := s.voters[v];
    var d := Weight(x, f) - x.last;
    VoterIsOk(s, v);
    if x.proxy != NOBODY {
      ProxyIsKnown(s, v, r);
      RanksAreKnown(s.voters, r);
      NotSeenBefore(seen, r, v, x.proxy);
      ChangeProxiedShape(s, x.proxy, d, r);
      ProxiedKeys(s, x.proxy, d);
      WellFormedPasses(ChangeProxied(s, x.proxy, d), x.proxy, f, seen + {x.proxy}, r);
    }
  }

  lemma ProxiedKeys(s: State, q: Name, d: real)
    requires q in s.voters
    ensures ChangeProxied(s, q, d).voters.Keys == s.voters.Keys
  {
  }

  lemma WellFormedPassesOn(s: State, v: Name, f: real, r: map<Name, nat>)
    requires WellFormed(s) && Ranked(s.voters, r) && v in s.voters
    ensures PassOn(s, v, f) == Some(Propagate(s, v, f, {v}))
  {
    hide WellFormed, Ranked, NoneBelow, Passable, Propagate;
    RanksAreKnown(s.voters, r);
    AloneIsLowest(r, v);
    WellFormedPasses(s, v, f, {v}, r);
  }

  // ----- the actions -----

  function Clamp(x: real): real {
    if x < 0.0 then 0.0 else x
  }

  /** The final loop of `update_votes`: the producers of the old list lose `a`, those of the new
      list gain `w`, and no total falls below zero. */
  function ApplyDeltas(producers: map<Name, Producer>, minus: seq<Name>, a: real, plus: seq<Name>, w: real): map<Name, Producer> {
    map p | p in producers ::
      if p in minus || p in plus then
        producers[p].(totalVotes :=
          Clamp(producers[p].totalVotes + ((if p in minus then -a else 0.0) + (if p in plus then w else 0.0))))
      else producers[p]
  }

  /** How many of the names are registered. */
  function Found(names: seq<Name>, producers: map<Name, Producer>): nat {
    if names == [] then 0
    else Found(names[..|names| - 1], producers) + (if names[|names| - 1] in producers then 1 else 0)
  }

  /** What the final loop of `update_votes` adds to the weight of all producers. */
  function WeightDelta(producers: map<Name, Producer>, minus: seq<Name>, a: real, plus: seq<Name>, w: real): real {
    w * Found(plus, producers) as real - a * Found(minus, producers) as real
  }

  /** The lists of producers `update_votes` takes weight from and gives weight to. */
  function OldList(x: Voter): seq<Name> {
    if x.last > 0.0 && x.proxy == NOBODY then x.producers else []
  }

  predicate VoteIsFormed(s: State, v: Name, proxy: Name, producers: seq<Name>) {
    && (proxy != NOBODY ==> producers == [] && v != proxy)
    && (proxy == NOBODY ==> |producers| <= 30 && Sorted(producers))
    && v in s.voters
    && (proxy != NOBODY ==> !s.voters[v].isProxy)
  }

  /** Taking a vote back from the proxy used so far. */
  function LeaveProxy(s: State, v: Name, f: real): Option<State>
    requires v in s.voters
  {
    var x := s.voters[v];
    if x.last > 0.0 && x.proxy != NOBODY then
      if x.proxy !in s.voters then None
      else PassOn(ChangeProxied(s, x.proxy, -x.last), x.proxy, f)
    else Some(s)
  }

  function JoinProxy(s: State, proxy: Name, w: real, voting: bool, f: real): Option<State> {
    if proxy == NOBODY then Some(s)
    else if proxy !in s.voters then None
    else if voting && !s.voters[proxy].isProxy then None
    else if w >= 0.0 then PassOn(ChangeProxied(s, proxy, w), proxy, f)
    else Some(s)
  }

  predicate MayVoteFor(s: State, producers: seq<Name>, voting: bool) {
    forall p :: p in producers ==> p in s.producers && (voting ==> s.producers[p].isActive)
  }

  function CastVote(s: State, v: Name, a: real, minus: seq<Name>, w: real, proxy: Name, producers: seq<Name>): State
    requires v in s.voters
  {
    var plus := if proxy == NOBODY && w >= 0.0 then producers else [];
    s.(producers := ApplyDeltas(s.producers, minus, a, plus, w),
       totalWeight := s.totalWeight + WeightDelta(s.producers, minus, a, plus, w),
       voters := s.voters[v := s.voters[v].(last := w, producers := producers, proxy := proxy)])
  }

  /** `update_votes`. */
  function UpdateVotes(s: State, v: Name, proxy: Name, producers: seq<Name>, voting: bool, f: real): Option<State> {
    if !VoteIsFormed(s, v, proxy, producers) then None
    else
      var x := s.voters[v];
      var w := Weight(x, f);
      var s0 := if x.last <= 0.0 then s.(activated := s.activated + x.staked) else s;
      var left := LeaveProxy(s0, v, f);
      if left.None? then None
      else
        var joined := JoinProxy(left.value, proxy, w, voting, f);
        if joined.None? || v !in joined.value.voters then None
        else if proxy == NOBODY && w >= 0.0 && !MayVoteFor(joined.value, producers, voting) then None
        else Some(CastVote(joined.value, v, x.last, OldList(x), w, proxy, producers))
  }

  function VoteProducer(s: State, v: Name, proxy: Name, producers: seq<Name>, f: real): Option<State> {
    UpdateVotes(s, v, proxy, producers, true, f)
  }

  /** `regproxy`. */
  function RegProxy(s: State, p: Name, flag: bool, f: real): Option<State> {
    if p == NOBODY then None
    else if p !in s.voters then Some(s.(voters := s.voters[p := NEW_VOTER.(isProxy := flag)]))
    else if flag == s.voters[p].isProxy then None
    else if flag && s.voters[p].proxy != NOBODY then None
    else PassOn(s.(voters := s.voters[p := s.voters[p].(isProxy := flag)]), p, f)
  }

  /** The last part of `changebw`: the stake behind a vote changes. */
  function ChangeStake(s: State, v: Name, delta: int, f: real): Option<State> {
    var x := if v in s.voters then s.voters[v] else NEW_VOTER;
    var x' := x.(staked := x.staked + delta);
    var s' := s.(voters := s.voters[v := x']);
    if v == NOBODY || x'.staked < 0 then None
    else if x'.producers != [] || x'.proxy != NOBODY then UpdateVotes(s', v, x'.proxy, x'.producers, false, f)
    else Some(s')
  }

  function RegProducer(s: State, p: Name): State {
    s.(producers := s.producers[p := if p in s.producers then s.producers[p].(isActive := true) else Producer(0.0, true)])
  }

  function UnregProd(s: State, p: Name): Option<State> {
    if p !in s.producers then None
    else Some(s.(producers := s.producers[p := s.producers[p].(isActive := false)]))
  }

  // ----- every action keeps the totals -----

  ghost function BallotsOf(voters: map<Name, Voter>): Ballots {
    map v | v in voters :: BallotOf(voters[v])
  }

  ghost predicate Acyclic(voters: map<Name, Voter>) {
    exists r :: Ranked(voters, r)
  }

  /** Holds as long as no change of weight that matters was suppressed: rows refer to rows that
      exist, no proxy uses a proxy, and every running total equals the sum it stands for. */
  ghost predicate Sound(s: State) {
    WellFormed(s) && Acyclic(s.voters) && Tallied(s, BallotsOf(s.voters))
  }

  lemma {:induction false} FoundAll(names: seq<Name>, producers: map<Name, Producer>)
    requires forall p :: p in names ==> p in producers
    ensures Found(names, producers) == |names|
  {
    if names != [] {
      FoundAll(names[..|names| - 1], producers);
    }
  }

  lemma ApplyDeltasIsAdding(producers: map<Name, Producer>, minus: seq<Name>, a: real, plus: seq<Name>, w: real)
    requires forall p :: p in producers ==>
               producers[p].totalVotes + ((if p in minus then -a else 0.0) + (if p in plus then w else 0.0)) >= 0.0
    ensures ApplyDeltas(producers, minus, a, plus, w) == AddVotes(AddVotes(producers, minus, -a), plus, w)
  {
  }

  /** Replacing one voter's list and amount. */
  lemma TalliedAfterCast(s: State, b: Ballots, v: Name, a: real, minus: seq<Name>, w: real, proxy: Name, producers: seq<Name>)
    requires Tallied(s, b) && WellFormed(s) && v in s.voters && w >= 0.0
    requires Sorted(minus) && (forall p :: p in minus ==> p in s.producers)
    requires b[v].proxy == proxy && (proxy != NOBODY ==> b[v].toProxy == w && producers == [])
    requires forall p :: p in s.producers ==> ListShare(b, v, p) == if p in minus then a else 0.0
    requires proxy == NOBODY ==> Sorted(producers) && forall p :: p in producers ==> p in s.producers
    ensures Tallied(CastVote(s, v, a, minus, w, proxy, producers), b[v := Ballot(proxy, w, producers, w)])
  {
    hide ListSum, ProxySum, VoteTotal, Sorted, WeightDelta, ApplyDeltas, AddVotes, VoterOk;
    var n := Ballot(proxy, w, producers, w);
    var plus := if proxy == NOBODY then producers else [];
    assert plus == producers;
    var s' := CastVote(s, v, a, minus, w, proxy, producers);
    CastTotals(s, b, v, a, minus, w, n);
    forall q | q in s.voters
      ensures s'.voters[q].proxied == ProxySum(b[v := n], q)
    {
      ProxySumChanges(b, v, n, q);
    }
    EmptyIsSorted();
    CastWeight(s, a, minus, w, plus);
  }

  lemma EmptyIsSorted()
    ensures Sorted([])
  {
  }

  lemma CastWeight(s: State, a: real, minus: seq<Name>, w: real, plus: seq<Name>)
    requires Sorted(minus) && (forall p :: p in minus ==> p in s.producers)
    requires Sorted(plus) && (forall p :: p in plus ==> p in s.producers)
    requires s.totalWeight == VoteTotal(s.producers)
    ensures s.totalWeight + WeightDelta(s.producers, minus, a, plus, w)
         == VoteTotal(AddVotes(AddVotes(s.producers, minus, -a), plus, w))
  {
    hide VoteTotal, Sorted, Found, AddVotes;
    FoundAll(minus, s.producers);
    FoundAll(plus, s.producers);
    AddVotesTotal(s.producers, minus, -a);
    AddVotesKeys(s.producers, minus, -a);
    AddVotesTotal(AddVotes(s.producers, minus, -a), plus, w);
    NegatedProduct(a, |minus| as real);
  }

  lemma AddVotesKeys(producers: map<Name, Producer>, names: seq<Name>, d: real)
    ensures AddVotes(producers, names, d).Keys == producers.Keys
  {
  }

  lemma NegatedProduct(a: real, n: real)
    ensures -a * n == -(a * n)
  {
  }

  lemma CastTotals(s: State, b: Ballots, v: Name, a: real, minus: seq<Name>, w: real, n: Ballot)
    requires Tallied(s, b) && v in s.voters && n.toList == w >= 0.0
    requires forall p :: p in s.producers ==> ListShare(b, v, p) == if p in minus then a else 0.0
    ensures ApplyDeltas(s.producers, minus, a, n.list, w) == AddVotes(AddVotes(s.producers, minus, -a), n.list, w)
    ensures ApplyDeltas(s.producers, minus, a, n.list, w).Keys == s.producers.Keys
    ensures forall p :: p in s.producers ==>
              ApplyDeltas(s.producers, minus, a, n.list, w)[p].totalVotes == ListSum(b[v := n], p)
  {
    hide ListSum, ProxySum, VoteTotal, ListShare;
    forall p | p in s.producers
      ensures s.producers[p].totalVotes + ((if p in minus then -a else 0.0) + (if p in n.list then w else 0.0)) == ListSum(b[v := n], p)
      ensures ListSum(b[v := n], p) >= 0.0
    {
      ListSumChanges(b, v, n, p);
      ListSumIsNonNegative(b[v := n], p);
    }
    ApplyDeltasIsAdding(s.producers, minus, a, n.list, w);
  }

  lemma ListSumIsNonNegative(b: Ballots, p: Name)
    requires forall u :: u in b ==> b[u].toList >= 0.0
    ensures ListSum(b, p) >= 0.0
  {
    SumIsNonNegative(b.Keys, (u: Name) => ListShare(b, u, p));
  }

  /** Between the steps of `update_votes`: all ballots but the one of `v` match the voters. */
  ghost predicate Underway(s: State, b: Ballots, v: Name, r: map<Name, nat>) {
    && v in s.voters && WellFormed(s) && Ranked(s.voters, r) && Tallied(s, b) && UpToDate(b, s.voters, {v})
  }

  lemma ShapeKeepsForm(s: State, s': State, v: Name, f: real, r: map<Name, nat>)
    requires WellFormed(s) && Ranked(s.voters, r) && v in s.voters && Shape(s, s', v, f, r)
    ensures WellFormed(s') && Ranked(s'.voters, r)
  {
    hide Sorted, Weight;
  }

  lemma UpdatedIsUpToDate(b: Ballots, voters: map<Name, Voter>, pending: set<Name>)
    ensures UpToDate(Updated(b, voters, pending), voters, pending)
  {
  }

  ghost predicate KeepsVoter(s: State, s': State, v: Name) {
    && v in s.voters && v in s'.voters && s'.voters[v] == s.voters[v]
    && SameVotes(s.voters, s'.voters) && SameProducers(s.producers, s'.producers)
    && s'.activated == s.activated
  }

  /** Moving weight to or from the proxy `q` while the vote of `v` is under way. */
  lemma MoveProxied(s: State, b: Ballots, v: Name, n: Ballot, q: Name, f: real, r: map<Name, nat>) returns (b': Ballots)
    requires Underway(s, b, v, r) && v in b && f >= 0.0 && q in s.voters && q != v && r[q] < r[v]
    requires n.proxy == b[v].proxy == q && n.toProxy >= 0.0 && n.list == b[v].list && n.toList == b[v].toList
    requires !Suppressed(ChangeProxied(s, q, n.toProxy - b[v].toProxy), q, f, {q})
    ensures var s' := Propagate(ChangeProxied(s, q, n.toProxy - b[v].toProxy), q, f, {q});
            && Underway(s', b', v, r) && v in b' && b'[v] == n
            && KeepsVoter(s, s', v)
  {
    hide Tallied, Weight, BallotOf, Sorted, WellFormed, Updated, Propagate, Suppressed, UpToDate, Shape, KeepsVoter, ChangeProxied;
    TalliedKeys(s, b);
    var d := n.toProxy - b[v].toProxy;
    var s1 := ChangeProxied(s, q, d);
    StaysUpToDate(s, b, v, n, q, d);
    AmountsAreNonNegative(s, b, v);
    TalliedAfterProxyChange(s, b, v, n, q);
    ChangeProxiedShape(s, q, d, r);
    assert Ready(s1, b[v := n], {v}, q, f, {q}, r);
    PropagateKeepsTallies(s1, b[v := n], {v}, q, f, {q}, r);
    PropagateShape(s1, q, f, {q}, r);
    var s' := Propagate(s1, q, f, {q});
    ShapeKeepsForm(s1, s', q, f, r);
    ShapeKeepsVoter(s, q, d, s', v, f, r);
    b' := Updated(b[v := n], s'.voters, {v});
    UpdatedIsUpToDate(b[v := n], s'.voters, {v});
    UpdatedPending(b[v := n], s'.voters, v);
  }

  lemma StaysUpToDate(s: State, b: Ballots, v: Name, n: Ballot, q: Name, d: real)
    requires UpToDate(b, s.voters, {v}) && q in s.voters && q != v
    ensures UpToDate(b[v := n], ChangeProxied(s, q, d).voters, {v})
  {
  }

  lemma UpdatedPending(b: Ballots, voters: map<Name, Voter>, v: Name)
    requires v in b
    ensures v in Updated(b, voters, {v}) && Updated(b, voters, {v})[v] == b[v]
  {
  }

  lemma AmountsAreNonNegative(s: State, b: Ballots, v: Name)
    requires Tallied(s, b) && v in b
    ensures b[v].toProxy >= 0.0 && b[v].toList >= 0.0
  {
  }

  /** Passing on the withdrawal from the old proxy suppresses a change. */
  ghost predicate LeaveSuppressed(s: State, v: Name, f: real)
    requires v in s.voters
  {
    var x := s.voters[v];
    x.last > 0.0 && x.proxy != NOBODY && x.proxy in s.voters
    && Suppressed(ChangeProxied(s, x.proxy, -x.last), x.proxy, f, {x.proxy})
  }

  ghost predicate JoinSuppressed(s: State, proxy: Name, w: real, f: real) {
    proxy != NOBODY && proxy in s.voters && w >= 0.0 && Suppressed(ChangeProxied(s, proxy, w), proxy, f, {proxy})
  }

  lemma SoundIsUnderway(s: State, v: Name, r: map<Name, nat>)
    requires Sound(s) && Ranked(s.voters, r) && v in s.voters
    ensures Underway(s, BallotsOf(s.voters), v, r) && v in BallotsOf(s.voters)
  {
    hide Tallied, WellFormed, Ranked;
  }

  lemma ShapeKeepsVoter(s: State, q: Name, d: real, s': State, v: Name, f: real, r: map<Name, nat>)
    requires q in s.voters && v in s.voters && Ranked(s.voters, r) && r[q] < r[v]
    requires Ranked(ChangeProxied(s, q, d).voters, r) && Shape(ChangeProxied(s, q, d), s', q, f, r)
    ensures KeepsVoter(s, s', v)
  {
    hide Weight;
  }

  lemma LeaveKeeps(s: State, v: Name, f: real, r: map<Name, nat>) returns (b: Ballots)
    requires Sound(s) && Ranked(s.voters, r) && v in s.voters && f >= 0.0 && !LeaveSuppressed(s, v, f)
    ensures var left := LeaveProxy(s, v, f);
            var x := s.voters[v];
            && left.Some? && Underway(left.value, b, v, r) && KeepsVoter(s, left.value, v)
            && v in b && b[v] == Ballot(x.proxy, if x.proxy == NOBODY then x.last else 0.0, x.producers, x.last)
  {
    hide Tallied, WellFormed, Sorted, Propagate, Suppressed, UpToDate, ChangeProxied, PassOn;
    SoundIsUnderway(s, v, r);
    var x := s.voters[v];
    b := BallotsOf(s.voters);
    AmountsAreNonNegative(s, b, v);
    if x.last > 0.0 && x.proxy != NOBODY {
      ProxyIsKnown(s, v, r);
      ChangeProxiedShape(s, x.proxy, -x.last, r);
      ProxiedKeys(s, x.proxy, -x.last);
      WellFormedPassesOn(ChangeProxied(s, x.proxy, -x.last), x.proxy, f, r);
      b := MoveProxied(s, b, v, b[v].(toProxy := 0.0), x.proxy, f, r);
    }
  }

  lemma ProxyIsKnown(s: State, v: Name, r: map<Name, nat>)
    requires WellFormed(s) && Ranked(s.voters, r) && v in s.voters && s.voters[v].proxy != NOBODY
    ensures s.voters[v].proxy in s.voters && r[s.voters[v].proxy] < r[v] && s.voters[v].proxy != v
  {
  }

  /** A ballot that adds nothing to its proxy may name another one. */
  lemma SwitchProxy(s: State, b: Ballots, v: Name, r: map<Name, nat>, proxy: Name)
    requires Underway(s, b, v, r) && v in b && (b[v].proxy == NOBODY || b[v].toProxy == 0.0)
    ensures Underway(s, b[v := b[v].(proxy := proxy, toProxy := 0.0)], v, r)
  {
    hide ListSum, ProxySum, VoteTotal, Sorted;
    var n := b[v].(proxy := proxy, toProxy := 0.0);
    forall p | p in s.producers
      ensures s.producers[p].totalVotes == ListSum(b[v := n], p)
    {
      ListSumChanges(b, v, n, p);
    }
    forall q | q in s.voters
      ensures s.voters[q].proxied == ProxySum(b[v := n], q)
    {
      ProxySumChanges(b, v, n, q);
    }
  }

  lemma JoinKeeps(s: State, b: Ballots, v: Name, proxy: Name, w: real, voting: bool, f: real, r: map<Name, nat>)
    returns (b': Ballots)
    requires Underway(s, b, v, r) && v in b && f >= 0.0 && w >= 0.0 && (b[v].proxy == NOBODY || b[v].toProxy == 0.0)
    requires proxy != NOBODY && proxy in s.voters ==> proxy != v && r[proxy] < r[v]
    requires JoinProxy(s, proxy, w, voting, f).Some? && !JoinSuppressed(s, proxy, w, f)
    ensures var joined := JoinProxy(s, proxy, w, voting, f);
            && Underway(joined.value, b', v, r) && KeepsVoter(s, joined.value, v)
            && v in b' && b'[v] == b[v].(proxy := proxy, toProxy := if proxy == NOBODY then 0.0 else w)
  {
    hide Tallied, WellFormed, Sorted, Propagate, Suppressed, UpToDate, ChangeProxied, Ranked;
    b' := b[v := b[v].(proxy := proxy, toProxy := 0.0)];
    SwitchProxy(s, b, v, r, proxy);
    if proxy != NOBODY {
      b' := MoveProxied(s, b', v, b'[v].(toProxy := w), proxy, f, r);
    }
  }

  lemma LiftedRank(voters: map<Name, Voter>, r: map<Name, nat>, q: Name) returns (r': map<Name, nat>)
    requires Ranked(voters, r) && q in voters && voters[q].proxy !in voters
    ensures Ranked(voters, r') && forall u :: u in voters && u != q ==> r'[q] < r'[u]
  {
    r' := map u | u in voters :: if u == q then 0 else r[u] + 1;
  }

  lemma ActivationIsNoVote(s: State, n: int)
    requires Sound(s)
    ensures Sound(s.(activated := n))
  {
    hide ListSum, ProxySum, VoteTotal, Sorted, Acyclic;
  }

  /** The vote as it is finally recorded. */
  lemma FinishedVote(s: State, b: Ballots, v: Name, x: Voter, w: real, proxy: Name, producers: seq<Name>, r: map<Name, nat>)
    requires Underway(s, b, v, r) && v in b && s.voters[v] == x && w >= 0.0 && x.last >= 0.0
    requires VoteIsFormed(s, v, proxy, producers)
    requires b[v] == Ballot(proxy, if proxy == NOBODY then 0.0 else w, x.producers, x.last)
    requires proxy == NOBODY ==> forall p :: p in producers ==> p in s.producers
    requires proxy != NOBODY ==> proxy in s.voters && r[proxy] < r[v]
    ensures Sound(CastVote(s, v, x.last, OldList(x), w, proxy, producers))
  {
    hide Tallied, Sorted, ApplyDeltas, WeightDelta;
    var s' := CastVote(s, v, x.last, OldList(x), w, proxy, producers);
    OldListShare(s, b, v, x);
    TalliedAfterCast(s, b, v, x.last, OldList(x), w, proxy, producers);
    TalliedKeys(s, b);
    BallotsMatch(s, b, v, s', Ballot(proxy, w, producers, w));
    CastForm(s, v, x, w, proxy, producers, r);
  }

  lemma OldListShare(s: State, b: Ballots, v: Name, x: Voter)
    requires WellFormed(s) && v in s.voters && s.voters[v] == x && x.last >= 0.0
    requires v in b && b[v].list == x.producers && b[v].toList == x.last
    ensures forall p :: p in s.producers ==> ListShare(b, v, p) == if p in OldList(x) then x.last else 0.0
    ensures Sorted(OldList(x)) && forall p :: p in OldList(x) ==> p in s.producers
  {
  }

  lemma BallotsMatch(s: State, b: Ballots, v: Name, s': State, n: Ballot)
    requires UpToDate(b, s.voters, {v}) && b.Keys == s.voters.Keys && v in s.voters
    requires v in s'.voters && s'.voters == s.voters[v := s'.voters[v]] && n == BallotOf(s'.voters[v])
    ensures BallotsOf(s'.voters) == b[v := n]
  {
  }

  lemma CastForm(s: State, v: Name, x: Voter, w: real, proxy: Name, producers: seq<Name>, r: map<Name, nat>)
    requires WellFormed(s) && Ranked(s.voters, r) && v in s.voters && s.voters[v] == x
    requires VoteIsFormed(s, v, proxy, producers)
    requires proxy == NOBODY ==> forall p :: p in producers ==> p in s.producers
    requires proxy != NOBODY ==> proxy in s.voters && r[proxy] < r[v]
    ensures var s' := CastVote(s, v, x.last, OldList(x), w, proxy, producers);
            WellFormed(s') && Ranked(s'.voters, r)
  {
    hide Found;
    EmptyIsSorted();
    var s' := CastVote(s, v, x.last, OldList(x), w, proxy, producers);
    assert s'.producers.Keys == s.producers.Keys;
    hide Sorted, ApplyDeltas, WeightDelta;
    assert Ranked(s'.voters, r);
  }

  lemma RankOf(s: State) returns (r: map<Name, nat>)
    requires Sound(s)
    ensures Ranked(s.voters, r)
  {
    r :| Ranked(s.voters, r);
  }

  lemma VoterWeights(s: State, v: Name, f: real)
    requires Sound(s) && v in s.voters && f >= 0.0
    ensures Weight(s.voters[v], f) >= 0.0 && s.voters[v].last >= 0.0
  {
    hide Tallied, Sorted, Weight;
    WeightIsNonNegative(s, BallotsOf(s.voters), v, f);
    AmountsAreNonNegative(s, BallotsOf(s.voters), v);
  }

  lemma RankForProxy(s: State, b: Ballots, v: Name, proxy: Name, voting: bool, w: real, f: real, r: map<Name, nat>)
    returns (r': map<Name, nat>)
    requires Underway(s, b, v, r) && proxy != NOBODY && proxy in s.voters && proxy != v
    requires JoinProxy(s, proxy, w, voting, f).Some? && (voting || proxy == s.voters[v].proxy)
    ensures Underway(s, b, v, r') && r'[proxy] < r'[v]
  {
    hide Tallied, Sorted, Propagate;
    if voting {
      r' := LiftedRank(s.voters, r, proxy);
    } else {
      r' := r;
    }
  }

  lemma JoinedProxy(s: State, s': State, v: Name, proxy: Name, w: real, voting: bool, f: real, producers: seq<Name>, x: Voter)
    requires JoinProxy(s, proxy, w, voting, f) == Some(s') && KeepsVoter(s, s', v) && s.voters[v] == x
    requires VoteIsFormed(s, v, proxy, producers)
    ensures VoteIsFormed(s', v, proxy, producers) && s'.voters[v] == x && (proxy != NOBODY ==> proxy in s.voters && proxy in s'.voters)
  {
    hide Propagate, Sorted;
  }

  /** A change of weight that matters is suppressed while a vote is updated. */
  ghost predicate UpdateSuppressed(s: State, v: Name, proxy: Name, f: real)
    requires v in s.voters
  {
    LeaveSuppressed(s, v, f) ||
    (LeaveProxy(s, v, f).Some? && JoinSuppressed(LeaveProxy(s, v, f).value, proxy, Weight(s.voters[v], f), f))
  }

  lemma UpdateVotesKeepsSound(s: State, v: Name, proxy: Name, producers: seq<Name>, voting: bool, f: real)
    requires Sound(s) && f >= 0.0
    requires UpdateVotes(s, v, proxy, producers, voting, f).Some?
    requires v in s.voters && (voting || proxy == s.voters[v].proxy)
    requires !UpdateSuppressed(if s.voters[v].last <= 0.0 then s.(activated := s.activated + s.voters[v].staked) else s, v, proxy, f)
    ensures Sound(UpdateVotes(s, v, proxy, producers, voting, f).value)
  {
    hide Sound, Tallied, WellFormed, Sorted, LeaveProxy, JoinProxy, CastVote, LeaveSuppressed, JoinSuppressed, Underway, Weight;
    var x := s.voters[v];
    var w := Weight(x, f);
    ActivationIsNoVote(s, s.activated + x.staked);
    var s0 := if x.last <= 0.0 then s.(activated := s.activated + x.staked) else s;
    var r := RankOf(s0);
    VoterWeights(s0, v, f);
    var b := LeaveKeeps(s0, v, f, r);
    var s1 := LeaveProxy(s0, v, f).value;
    JoinKnown(s1, proxy, w, voting, f);
    if proxy != NOBODY {
      r := RankForProxy(s1, b, v, proxy, voting, w, f, r);
    }
    var b' := JoinKeeps(s1, b, v, proxy, w, voting, f, r);
    var s2 := JoinProxy(s1, proxy, w, voting, f).value;
    JoinedProxy(s1, s2, v, proxy, w, voting, f, producers, x);
    FinishedVote(s2, b', v, x, w, proxy, producers, r);
  }

  lemma JoinKnown(s: State, proxy: Name, w: real, voting: bool, f: real)
    requires JoinProxy(s, proxy, w, voting, f).Some?
    ensures proxy != NOBODY ==> proxy in s.voters
  {
  }

  // ----- new rows -----

  lemma ListSumInsert(b: Ballots, v: Name, n: Ballot, p: Name)
    requires v !in b && p !in n.list
    ensures ListSum(b[v := n], p) == ListSum(b, p)
  {
    var b' := b[v := n];
    assert b'.Keys == b.Keys + {v};
    SumInsert(b.Keys, (u: Name) => ListShare(b, u, p), (u: Name) => ListShare(b', u, p), v);
  }

  lemma ProxySumInsert(b: Ballots, v: Name, n: Ballot, q: Name)
    requires v !in b && n.proxy != q
    ensures ProxySum(b[v := n], q) == ProxySum(b, q)
  {
    var b' := b[v := n];
    assert b'.Keys == b.Keys + {v};
    SumInsert(b.Keys, (u: Name) => ProxyShare(b, u, q), (u: Name) => ProxyShare(b', u, q), v);
  }

  lemma NobodyDelegates(b: Ballots, q: Name)
    requires forall u :: u in b ==> b[u].proxy != q
    ensures ProxySum(b, q) == 0.0
  {
    SumOfZeros(b.Keys, (u: Name) => ProxyShare(b, u, q));
  }

  lemma NobodyLists(b: Ballots, p: Name)
    requires forall u :: u in b ==> p !in b[u].list
    ensures ListSum(b, p) == 0.0
  {
    SumOfZeros(b.Keys, (u: Name) => ListShare(b, u, p));
  }

  lemma InsertVoterKeepsSound(s: State, v: Name, x: Voter)
    requires Sound(s) && v !in s.voters && v != NOBODY && x == NEW_VOTER.(staked := x.staked, isProxy := x.isProxy) && x.staked >= 0
    ensures Sound(s.(voters := s.voters[v := x]))
  {
    hide Tallied, Sorted, WellFormed, Acyclic;
    NotAProxyYet(s, v);
    assert BallotsOf(s.voters[v := x]) == BallotsOf(s.voters)[v := BallotOf(x)];
    InsertTallied(s, BallotsOf(s.voters), v, x);
    InsertForm(s, v, x);
  }

  lemma NotAProxyYet(s: State, v: Name)
    requires WellFormed(s) && v !in s.voters && v != NOBODY
    ensures NOBODY !in s.voters && forall u :: u in s.voters ==> s.voters[u].proxy != v
  {
  }

  lemma InsertTallied(s: State, b: Ballots, v: Name, x: Voter)
    requires Tallied(s, b) && v !in s.voters && v != NOBODY && x == NEW_VOTER.(staked := x.staked, isProxy := x.isProxy)
    requires NOBODY !in s.voters && forall u :: u in b ==> b[u].proxy != v
    ensures Tallied(s.(voters := s.voters[v := x]), b[v := BallotOf(x)])
  {
    hide ListSum, ProxySum, VoteTotal;
    var s' := s.(voters := s.voters[v := x]);
    var n := BallotOf(x);
    forall p | p in s'.producers
      ensures s'.producers[p].totalVotes == ListSum(b[v := n], p)
    {
      ListSumInsert(b, v, n, p);
    }
    forall q | q in s'.voters
      ensures s'.voters[q].proxied == ProxySum(b[v := n], q)
    {
      ProxySumInsert(b, v, n, q);
      if q == v {
        NobodyDelegates(b, v);
      }
    }
  }

  lemma InsertForm(s: State, v: Name, x: Voter)
    requires WellFormed(s) && Acyclic(s.voters) && v !in s.voters && v != NOBODY
    requires x == NEW_VOTER.(staked := x.staked, isProxy := x.isProxy) && x.staked >= 0
    ensures WellFormed(s.(voters := s.voters[v := x])) && Acyclic(s.voters[v := x])
  {
    EmptyIsSorted();
    hide Sorted;
    var r :| Ranked(s.voters, r);
    assert Ranked(s.voters[v := x], r[v := 0]);
  }

  /** Changing the stake or the registration as a proxy leaves all votes as they are. */
  lemma NoVote(s: State, v: Name, x: Voter, r: map<Name, nat>)
    requires Sound(s) && Ranked(s.voters, r) && v in s.voters && VoterOk(s, x)
    requires x == s.voters[v].(staked := x.staked, isProxy := x.isProxy)
    ensures var s' := s.(voters := s.voters[v := x]);
            && WellFormed(s') && Ranked(s'.voters, r) && Tallied(s', BallotsOf(s'.voters))
            && BallotsOf(s'.voters) == BallotsOf(s.voters)
  {
    hide Tallied, WellFormed, VoterOk, BallotsOf, Ranked;
    NoVoteTallied(s, BallotsOf(s.voters), v, x);
    NoVoteBallots(s, v, x);
    NoVoteForm(s, v, x, r);
  }

  lemma NoVoteBallots(s: State, v: Name, x: Voter)
    requires v in s.voters && x == s.voters[v].(staked := x.staked, isProxy := x.isProxy)
    ensures BallotsOf(s.voters[v := x]) == BallotsOf(s.voters)
  {
  }

  lemma NoVoteForm(s: State, v: Name, x: Voter, r: map<Name, nat>)
    requires WellFormed(s) && Ranked(s.voters, r) && v in s.voters && VoterOk(s, x)
    requires x == s.voters[v].(staked := x.staked, isProxy := x.isProxy)
    ensures WellFormed(s.(voters := s.voters[v := x])) && Ranked(s.voters[v := x], r)
  {
    hide Sorted;
  }

  lemma NoVoteTallied(s: State, b: Ballots, v: Name, x: Voter)
    requires Tallied(s, b) && v in s.voters && x.proxied == s.voters[v].proxied
    ensures Tallied(s.(voters := s.voters[v := x]), b)
  {
    hide ListSum, ProxySum, VoteTotal;
  }

  lemma StakeIsNoVote(s: State, v: Name, staked: int)
    requires Sound(s) && v in s.voters && staked >= 0
    ensures Sound(s.(voters := s.voters[v := s.voters[v].(staked := staked)]))
  {
    hide Tallied, Sorted;
    var r := RankOf(s);
    NoVote(s, v, s.voters[v].(staked := staked), r);
  }

  lemma RegProducerKeepsSound(s: State, p: Name)
    requires Sound(s)
    ensures Sound(RegProducer(s, p))
  {
    hide ListSum, ProxySum, VoteTotal, Sorted, Acyclic;
    var b := BallotsOf(s.voters);
    var s' := RegProducer(s, p);
    if p in s.producers {
      VoteTotalChanges(s.producers, p, s'.producers[p]);
    } else {
      NobodyLists(b, p);
      VoteTotalInsert(s.producers, p, s'.producers[p]);
    }
  }

  lemma VoteTotalInsert(producers: map<Name, Producer>, p: Name, n: Producer)
    requires p !in producers
    ensures VoteTotal(producers[p := n]) == VoteTotal(producers) + n.totalVotes
  {
    var producers' := producers[p := n];
    assert producers'.Keys == producers.Keys + {p};
    SumInsert(producers.Keys, (p: Name) => if p in producers then producers[p].totalVotes else 0.0,
              (p: Name) => if p in producers' then producers'[p].totalVotes else 0.0, p);
  }

  lemma UnregProdKeepsSound(s: State, p: Name)
    requires Sound(s) && UnregProd(s, p).Some?
    ensures Sound(UnregProd(s, p).value)
  {
    hide ListSum, ProxySum, VoteTotal, Sorted, Acyclic;
    VoteTotalChanges(s.producers, p, UnregProd(s, p).value.producers[p]);
  }

  ghost predicate RegProxySuppressed(s: State, p: Name, flag: bool, f: real) {
    p in s.voters && Suppressed(s.(voters := s.voters[p := s.voters[p].(isProxy := flag)]), p, f, {p})
  }

  lemma RegProxyKeepsSound(s: State, p: Name, flag: bool, f: real)
    requires Sound(s) && f >= 0.0 && RegProxy(s, p, flag, f).Some? && !RegProxySuppressed(s, p, flag, f)
    ensures Sound(RegProxy(s, p, flag, f).value)
  {
    if p !in s.voters {
      InsertVoterKeepsSound(s, p, NEW_VOTER.(isProxy := flag));
    } else {
      hide Sound, Propagate, Suppressed, Ready, Tallied;
      var s1 := s.(voters := s.voters[p := s.voters[p].(isProxy := flag)]);
      var r := FlagIsNoVote(s, p, flag, f);
      var b := BallotsOf(s1.voters);
      PropagateKeepsTallies(s1, b, {}, p, f, {p}, r);
      PropagateShape(s1, p, f, {p}, r);
      var s' := Propagate(s1, p, f, {p});
      SoundAfterShape(s1, s', p, f, r);
    }
  }

  lemma FlagIsNoVote(s: State, p: Name, flag: bool, f: real) returns (r: map<Name, nat>)
    requires Sound(s) && f >= 0.0 && p in s.voters && (flag ==> s.voters[p].proxy == NOBODY)
    ensures var s1 := s.(voters := s.voters[p := s.voters[p].(isProxy := flag)]);
            Ready(s1, BallotsOf(s1.voters), {}, p, f, {p}, r)
  {
    hide Tallied, Sorted;
    r := RankOf(s);
    NoVote(s, p, s.voters[p].(isProxy := flag), r);
  }

  lemma SoundAfterShape(s: State, s': State, v: Name, f: real, r: map<Name, nat>)
    requires WellFormed(s) && Ranked(s.voters, r) && v in s.voters && Shape(s, s', v, f, r)
    requires Tallied(s', Updated(BallotsOf(s.voters), s'.voters, {}))
    ensures Sound(s')
  {
    hide Tallied, Weight, Sorted;
    ShapeKeepsForm(s, s', v, f, r);
    assert Updated(BallotsOf(s.voters), s'.voters, {}) == BallotsOf(s'.voters);
  }

  // ----- staking and voting never fail on account of the tables -----

  lemma OwnVoteIsFormed(s: State, v: Name)
    requires WellFormed(s) && v in s.voters && s.voters[v].proxy != v
    ensures VoteIsFormed(s, v, s.voters[v].proxy, s.voters[v].producers)
  {
  }

  lemma LeaveSucceeds(s: State, v: Name, f: real, r: map<Name, nat>)
    requires WellFormed(s) && Ranked(s.voters, r) && v in s.voters
    ensures LeaveProxy(s, v, f).Some? && KeepsVoter(s, LeaveProxy(s, v, f).value, v)
    ensures WellFormed(LeaveProxy(s, v, f).value) && Ranked(LeaveProxy(s, v, f).value.voters, r)
  {
    hide WellFormed, Propagate, Weight, Shape, ChangeProxied, PassOn;
    var x := s.voters[v];
    if x.last > 0.0 && x.proxy != NOBODY {
      ProxyIsKnown(s, v, r);
      ChangeProxiedShape(s, x.proxy, -x.last, r);
      var s1 := ChangeProxied(s, x.proxy, -x.last);
      ProxiedKeys(s, x.proxy, -x.last);
      WellFormedPassesOn(s1, x.proxy, f, r);
      PropagateShape(s1, x.proxy, f, {x.proxy}, r);
      ShapeKeepsForm(s1, Propagate(s1, x.proxy, f, {x.proxy}), x.proxy, f, r);
      ShapeKeepsVoter(s, x.proxy, -x.last, Propagate(s1, x.proxy, f, {x.proxy}), v, f, r);
    }
  }

  lemma JoinSucceeds(s: State, proxy: Name, w: real, f: real, r: map<Name, nat>)
    requires WellFormed(s) && Ranked(s.voters, r) && (proxy != NOBODY ==> proxy in s.voters)
    ensures JoinProxy(s, proxy, w, false, f).Some?
    ensures JoinProxy(s, proxy, w, false, f).value.voters.Keys == s.voters.Keys
    ensures JoinProxy(s, proxy, w, false, f).value.producers.Keys == s.producers.Keys
  {
    hide WellFormed, Propagate, Weight, Shape, ChangeProxied, PassOn, Ranked;
    if proxy != NOBODY && w >= 0.0 {
      ChangeProxiedShape(s, proxy, w, r);
      ProxiedKeys(s, proxy, w);
      var s1 := ChangeProxied(s, proxy, w);
      WellFormedPassesOn(s1, proxy, f, r);
      PropagateShape(s1, proxy, f, {proxy}, r);
      ShapeKeys(s1, Propagate(s1, proxy, f, {proxy}), proxy, f, r);
      ProxiedProducers(s, proxy, w);
    }
  }

  lemma ProxiedProducers(s: State, q: Name, d: real)
    requires q in s.voters
    ensures ChangeProxied(s, q, d).producers == s.producers
  {
  }

  lemma ShapeKeys(s: State, s': State, v: Name, f: real, r: map<Name, nat>)
    requires v in s.voters && Ranked(s.voters, r) && Shape(s, s', v, f, r)
    ensures s'.voters.Keys == s.voters.Keys && s'.producers.Keys == s.producers.Keys && s'.activated == s.activated
  {
    hide Weight, Ranked;
  }

  lemma ActivationKeepsForm(s: State, n: int)
    requires WellFormed(s)
    ensures WellFormed(s.(activated := n))
  {
    hide Sorted;
  }

  /** Counting an existing vote again does not fail in well-formed tables. */
  lemma RenewalSucceeds(s: State, v: Name, f: real)
    requires WellFormed(s) && Acyclic(s.voters) && v in s.voters
    ensures UpdateVotes(s, v, s.voters[v].proxy, s.voters[v].producers, false, f).Some?
  {
    hide Sorted, Propagate, Weight, LeaveProxy, JoinProxy, CastVote, WellFormed, Ranked;
    var x := s.voters[v];
    var s0 := if x.last <= 0.0 then s.(activated := s.activated + x.staked) else s;
    var r :| Ranked(s.voters, r);
    if x.proxy != NOBODY {
      ProxyIsKnown(s, v, r);
    }
    NobodyIsNoVoter(s);
    OwnVoteIsFormed(s, v);
    ActivationKeepsForm(s, s.activated + x.staked);
    LeaveSucceeds(s0, v, f, r);
    JoinSucceeds(LeaveProxy(s0, v, f).value, x.proxy, Weight(x, f), f, r);
    VoterIsOk(s, v);
  }

  lemma StakeKeepsForm(s: State, v: Name, staked: int)
    requires WellFormed(s) && Acyclic(s.voters) && v in s.voters && staked >= 0
    ensures var x := s.voters[v].(staked := staked);
            WellFormed(s.(voters := s.voters[v := x])) && Acyclic(s.voters[v := x])
  {
    hide Sorted;
    var r :| Ranked(s.voters, r);
    NoVoteForm(s, v, s.voters[v].(staked := staked), r);
  }

  /** In well-formed tables a change of stake succeeds exactly when the stake stays non-negative. */
  lemma ChangeStakeSucceeds(s: State, v: Name, delta: int, f: real)
    requires WellFormed(s) && Acyclic(s.voters)
    ensures ChangeStake(s, v, delta, f).Some? <==>
              v != NOBODY && (if v in s.voters then s.voters[v].staked else 0) + delta >= 0
  {
    hide WellFormed, Acyclic, UpdateVotes;
    if v in s.voters && s.voters[v].staked + delta >= 0 {
      NobodyIsNoVoter(s);
      StakeKeepsForm(s, v, s.voters[v].staked + delta);
      RenewalSucceeds(s.(voters := s.voters[v := s.voters[v].(staked := s.voters[v].staked + delta)]), v, f);
    }
  }

  lemma NobodyIsNoVoter(s: State)
    requires WellFormed(s)
    ensures NOBODY !in s.voters
  {
  }

  ghost predicate ChangeStakeSuppressed(s: State, v: Name, delta: int, f: real) {
    v in s.voters &&
    var x := s.voters[v].(staked := s.voters[v].staked + delta);
    var s' := s.(voters := s.voters[v := x]);
    UpdateSuppressed(if x.last <= 0.0 then s'.(activated := s'.activated + x.staked) else s', v, x.proxy, f)
  }

  lemma ChangeStakeKeepsSound(s: State, v: Name, delta: int, f: real)
    requires Sound(s) && f >= 0.0 && ChangeStake(s, v, delta, f).Some? && !ChangeStakeSuppressed(s, v, delta, f)
    ensures Sound(ChangeStake(s, v, delta, f).value)
  {
    hide Sound, UpdateVotes, UpdateSuppressed;
    if v in s.voters {
      StakeIsNoVote(s, v, s.voters[v].staked + delta);
      var s' := s.(voters := s.voters[v := s.voters[v].(staked := s.voters[v].staked + delta)]);
      var x := s'.voters[v];
      if x.producers != [] || x.proxy != NOBODY {
        UpdateVotesKeepsSound(s', v, x.proxy, x.producers, false, f);
      }
    } else {
      InsertVoterKeepsSound(s, v, NEW_VOTER.(staked := delta));
      NewVoterHasNoVote(delta);
    }
  }

  lemma NewVoterHasNoVote(delta: int)
    ensures NEW_VOTER.(staked := NEW_VOTER.staked + delta) == NEW_VOTER.(staked := delta)
  {
  }

  // ----- when a suppressed change breaks the totals -----

  lemma TalliedIgnoresLastBack(s: State, b: Ballots, v: Name, w: real)
    requires v in s.voters && Tallied(SetLast(s, v, w), b)
    ensures Tallied(s, b)
  {
    hide ListSum, ProxySum, VoteTotal;
  }

  lemma SuppressedHere(s: State, b: Ballots, v: Name, w: real)
    requires Tallied(s, b) && WellFormed(s) && v in s.voters && b[v] == BallotOf(s.voters[v]) && w != s.voters[v].last
    requires s.voters[v].proxy != NOBODY || s.voters[v].producers != []
    ensures !Tallied(s, b[v := Ballot(s.voters[v].proxy, w, s.voters[v].producers, w)])
  {
    hide ListSum, ProxySum, VoteTotal, Sorted;
    var x := s.voters[v];
    var n := Ballot(x.proxy, w, x.producers, w);
    if x.proxy != NOBODY {
      ProxySumChanges(b, v, n, x.proxy);
    } else {
      ListSumChanges(b, v, n, x.producers[0]);
      assert x.producers[0] in s.producers;
    }
  }

  /** Passing on a change of weight keeps the totals equal to the sums from scratch if and only
      if no change that matters is suppressed on the way. */
  lemma {:induction false} PropagateIsExactIff(s: State, b: Ballots, pending: set<Name>, v: Name, f: real,
                                               seen: set<Name>, r: map<Name, nat>)
    requires Ready(s, b, pending, v, f, seen, r)
    ensures var s' := Propagate(s, v, f, seen);
            Tallied(s', Updated(b, s'.voters, pending)) <==> !Suppressed(s, v, f, seen)
    decreases s.voters.Keys - seen
  {
    hide Tallied, Weight, Sorted, ChangeProxied, WellFormed, Updated, Shape, ChangeListed;
    if !Suppressed(s, v, f, seen) {
      PropagateKeepsTallies(s, b, pending, v, f, seen, r);
    } else if Negligible(Weight(s.voters[v], f) - s.voters[v].last) {
      DriftsHere(s, b, pending, v, f, seen, r);
    } else {
      var x := s.voters[v];
      var w := Weight(x, f);
      PassedToProxy(s, b, pending, v, f, seen, r);
      var s1 := ChangeProxied(s, x.proxy, w - x.last);
      PropagateIsExactIff(s1, b[v := Ballot(x.proxy, w, [], w)], pending + {v}, x.proxy, f, seen + {x.proxy}, r);
      DriftsAbove(s, b, pending, v, f, seen, r);
    }
  }

  lemma DriftsAbove(s: State, b: Ballots, pending: set<Name>, v: Name, f: real, seen: set<Name>, r: map<Name, nat>)
    requires Ready(s, b, pending, v, f, seen, r) && s.voters[v].proxy != NOBODY
    requires s.voters[v].proxy in s.voters && s.voters[v].proxy !in seen && !Negligible(Weight(s.voters[v], f) - s.voters[v].last)
    requires var x := s.voters[v];
             var w := Weight(x, f);
             var s2 := Propagate(ChangeProxied(s, x.proxy, w - x.last), x.proxy, f, seen + {x.proxy});
             !Tallied(s2, Updated(b[v := Ballot(x.proxy, w, [], w)], s2.voters, pending + {v}))
    ensures var s' := Propagate(s, v, f, seen); !Tallied(s', Updated(b, s'.voters, pending))
  {
    hide Tallied, Weight, Ready, Ranked, ChangeProxied, Propagate, Updated, Shape;
    ReadyParts(s, b, pending, v, f, seen, r);
    var x := s.voters[v];
    var w := Weight(x, f);
    var d := w - x.last;
    ProxyIsBelow(s, v, r);
    ProxiedKeys(s, x.proxy, d);
    var s1 := ChangeProxied(s, x.proxy, d);
    var s2 := Propagate(s1, x.proxy, f, seen + {x.proxy});
    ChangeProxiedShape(s, x.proxy, d, r);
    PropagateShape(s1, x.proxy, f, seen + {x.proxy}, r);
    KeysAfter(s1, s2, x.proxy, f, r);
    KeepsOthers(s, x.proxy, d, v);
    UpdatedAbove(b, s, s1, s2, SetLast(s2, v, w), pending, v, f, r, x.proxy);
    PropagatePassesOn(s, v, f, seen);
    var b2 := Updated(b[v := Ballot(x.proxy, w, [], w)], s2.voters, pending + {v});
    if Tallied(SetLast(s2, v, w), b2) {
      TalliedIgnoresLastBack(s2, b2, v, w);
    }
  }

  lemma ReadyParts(s: State, b: Ballots, pending: set<Name>, v: Name, f: real, seen: set<Name>, r: map<Name, nat>)
    requires Ready(s, b, pending, v, f, seen, r)
    ensures v in s.voters && WellFormed(s) && Ranked(s.voters, r) && b.Keys == s.voters.Keys && v !in pending
    ensures s.voters[v].proxy != NOBODY ==> s.voters[v].producers == []
  {
    hide Sorted, ListSum, ProxySum, VoteTotal;
  }

  lemma ProxyIsBelow(s: State, v: Name, r: map<Name, nat>)
    requires Ranked(s.voters, r) && v in s.voters && s.voters[v].proxy in s.voters
    ensures v in r && s.voters[v].proxy in r && r[s.voters[v].proxy] < r[v]
  {
  }

  lemma KeysAfter(s: State, s': State, v: Name, f: real, r: map<Name, nat>)
    requires v in s.voters && Ranked(s.voters, r) && Shape(s, s', v, f, r)
    ensures s'.voters.Keys == s.voters.Keys
  {
    hide Weight;
  }

  lemma PropagatePassesOn(s: State, v: Name, f: real, seen: set<Name>)
    requires v in s.voters && !Negligible(Weight(s.voters[v], f) - s.voters[v].last) && s.voters[v].proxy != NOBODY
    requires s.voters[v].proxy in s.voters && s.voters[v].proxy !in seen
    ensures var w, q := Weight(s.voters[v], f), s.voters[v].proxy;
            Propagate(s, v, f, seen) ==
              SetLast(Propagate(ChangeProxied(s, q, w - s.voters[v].last), q, f, seen + {q}), v, w)
  {
  }

  lemma DriftsHere(s: State, b: Ballots, pending: set<Name>, v: Name, f: real, seen: set<Name>, r: map<Name, nat>)
    requires Ready(s, b, pending, v, f, seen, r)
    requires Suppressed(s, v, f, seen) && Negligible(Weight(s.voters[v], f) - s.voters[v].last)
    ensures var s' := Propagate(s, v, f, seen); !Tallied(s', Updated(b, s'.voters, pending))
  {
    hide Tallied, Weight, Sorted, ChangeProxied, WellFormed, Updated, Shape, ChangeListed;
    var x := s.voters[v];
    var w := Weight(x, f);
    TalliedKeys(s, b);
    LastShape(s, v, f, r);
    UpdatedAt(b, s, SetLast(s, v, w), pending, v, f, r, Ballot(x.proxy, w, x.producers, w));
    SuppressedHere(s, b, v, w);
    if Tallied(SetLast(s, v, w), b[v := Ballot(x.proxy, w, x.producers, w)]) {
      TalliedIgnoresLastBack(s, b[v := Ballot(x.proxy, w, x.producers, w)], v, w);
    }
  }
}
