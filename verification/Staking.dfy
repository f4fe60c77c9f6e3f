/** Staking tokens for bandwidth: delegating, undelegating with a delayed refund, and claiming
    the refund. Amounts are unbounded integers; the supply of the token keeps the real ones far
    from the limits of their type. */
module Staking {
  import opened Options
  import opened MapSums
  import Voting

  type Name = nat

  /** The account that holds all staked tokens, eosio.stake. */
  const STAKE: Name := 6138663591134630912

  datatype Bandwidth = Bandwidth(net: int, cpu: int)

  datatype Resources = Resources(net: int, cpu: int, ram: int)

  datatype Refund = Refund(time: int, net: int, cpu: int)

  type Delegations = map<(Name, Name), Bandwidth>

  datatype State = State(
    delegated: Delegations,
    resources: map<Name, Resources>,
    refunds: map<Name, Refund>,
    balances: map<Name, int>,
    votes: Voting.State)

  function Abs(x: int): int {
    if x < 0 then -x else x
  }

  function Max(x: int, y: int): int {
    if x < y then y else x
  }

  // ----- the tables -----

  function Delegated(d: Delegations, from: Name, to: Name): Bandwidth {
    if (from, to) in d then d[(from, to)] else Bandwidth(0, 0)
  }

  /** Changes the row for `from` and `to`; a row that falls to zero is erased. */
  function AddDelegation(d: Delegations, from: Name, to: Name, net: int, cpu: int): Option<Delegations> {
    var prior := Delegated(d, from, to);
    var row := Bandwidth(prior.net + net, prior.cpu + cpu);
    if row.net < 0 || row.cpu < 0 then None
    else if row == Bandwidth(0, 0) then Some(d - {(from, to)})
    else Some(d[(from, to) := row])
  }

  function ResourcesOf(t: map<Name, Resources>, r: Name): Resources {
    if r in t then t[r] else Resources(0, 0, 0)
  }

  function AddResources(t: map<Name, Resources>, r: Name, net: int, cpu: int): Option<map<Name, Resources>> {
    var prior := ResourcesOf(t, r);
    var row := Resources(prior.net + net, prior.cpu + cpu, prior.ram);
    if row.net < 0 || row.cpu < 0 then None
    else if row == Resources(0, 0, 0) then Some(t - {r})
    else Some(t[r := row])
  }

  /** Takes `amount` out of what is pending; the rest is still to be paid. */
  function Left(pending: int, amount: int): int {
    if pending - amount < 0 then 0 else pending - amount
  }

  function StillToPay(pending: int, amount: int): int {
    if pending - amount < 0 then amount - pending else 0
  }

  /** What `changebw` does with the refunds, and the amount still to be taken from the balance. */
  function ChangeRefund(refunds: map<Name, Refund>, from: Name, toSelf: bool, net: int, cpu: int, now: int)
    : (map<Name, Refund>, int)
  {
    if !toSelf && net + cpu >= 0 then (refunds, net + cpu)
    else if from in refunds then
      var prior := refunds[from];
      var row := Refund(if net < 0 || cpu < 0 then now else prior.time, Left(prior.net, net), Left(prior.cpu, cpu));
      (if row.net == 0 && row.cpu == 0 then refunds - {from} else refunds[from := row],
       StillToPay(prior.net, net) + StillToPay(prior.cpu, cpu))
    else if net < 0 || cpu < 0 then
      (refunds[from := Refund(now, if net < 0 then -net else 0, if cpu < 0 then -cpu else 0)],
       (if net < 0 then 0 else net) + (if cpu < 0 then 0 else cpu))
    else (refunds, net + cpu)
  }

  function BalanceOf(b: map<Name, int>, a: Name): int {
    if a in b then b[a] else 0
  }

  /** The token contract's transfer; a balance that falls to zero is erased. */
  function Transfer(b: map<Name, int>, from: Name, to: Name, amount: int): Option<map<Name, int>> {
    if from == to || amount <= 0 || BalanceOf(b, from) < amount then None
    else
      var b1 := if BalanceOf(b, from) == amount then b - {from} else b[from := b[from] - amount];
      Some(b1[to := BalanceOf(b1, to) + amount])
  }

  // ----- the actions -----

  predicate DeltasAreFormed(net: int, cpu: int) {
    (net != 0 || cpu != 0) && Abs(net + cpu) >= Max(Abs(net), Abs(cpu))
  }

  /** The part of `changebw` that moves tokens: nothing is moved for eosio.stake itself. */
  function MoveTokens(s: State, source: Name, from: Name, toSelf: bool, net: int, cpu: int, now: int): Option<State> {
    if source == STAKE then Some(s)
    else
      var (refunds, amount) := ChangeRefund(s.refunds, from, toSelf, net, cpu, now);
      if amount <= 0 then Some(s.(refunds := refunds))
      else
        var balances := Transfer(s.balances, source, STAKE, amount);
        if balances.None? then None else Some(s.(refunds := refunds, balances := balances.value))
  }

  /** `changebw`. */
  function ChangeBw(s: State, source: Name, receiver: Name, net: int, cpu: int, transfer: bool, now: int, f: real): Option<State> {
    if !DeltasAreFormed(net, cpu) then None
    else
      var from := if transfer then receiver else source;
      var delegated := AddDelegation(s.delegated, from, receiver, net, cpu);
      var resources := AddResources(s.resources, receiver, net, cpu);
      if delegated.None? || resources.None? then None
      else
        var moved := MoveTokens(s, source, from, !transfer && from == receiver, net, cpu, now);
        var votes := Voting.ChangeStake(s.votes, from, net + cpu, f);
        if moved.None? || votes.None? then None
        else Some(moved.value.(delegated := delegated.value, resources := resources.value, votes := votes.value))
  }

  function DelegateBw(s: State, source: Name, receiver: Name, net: int, cpu: int, transfer: bool, now: int, f: real): Option<State> {
    if cpu < 0 || net < 0 || net + cpu <= 0 || (transfer && source == receiver) then None
    else ChangeBw(s, source, receiver, net, cpu, transfer, now, f)
  }

  function UndelegateBw(s: State, source: Name, receiver: Name, net: int, cpu: int, minActivated: int, now: int, f: real): Option<State> {
    if cpu < 0 || net < 0 || net + cpu <= 0 || s.votes.activated < minActivated then None
    else ChangeBw(s, source, receiver, -net, -cpu, false, now, f)
  }

  function ClaimRefund(s: State, owner: Name, now: int, delay: int): Option<State> {
    if owner !in s.refunds || s.refunds[owner].time + delay > now then None
    else
      var balances := Transfer(s.balances, STAKE, owner, s.refunds[owner].net + s.refunds[owner].cpu);
      if balances.None? then None
      else Some(s.(balances := balances.value, refunds := s.refunds - {owner}))
  }

  // ----- sums over the tables -----

  ghost function ReceivedNet(d: Delegations, r: Name): int {
    MapSum(d, (k: (Name, Name), b: Bandwidth) => if k.1 == r then b.net else 0)
  }

  ghost function ReceivedCpu(d: Delegations, r: Name): int {
    MapSum(d, (k: (Name, Name), b: Bandwidth) => if k.1 == r then b.cpu else 0)
  }

  ghost function Given(d: Delegations, v: Name): int {
    MapSum(d, (k: (Name, Name), b: Bandwidth) => if k.0 == v then b.net + b.cpu else 0)
  }

  ghost function AllDelegated(d: Delegations): int {
    MapSum(d, (k: (Name, Name), b: Bandwidth) => b.net + b.cpu)
  }

  ghost function AllRefunds(refunds: map<Name, Refund>): int {
    MapSum(refunds, (k: Name, r: Refund) => r.net + r.cpu)
  }

  ghost function AllTokens(b: map<Name, int>): int {
    MapSum(b, (k: Name, n: int) => n)
  }

  function StakeOf(votes: Voting.State, v: Name): int {
    if v in votes.voters then votes.voters[v].staked else 0
  }

  /** Pending refunds are positive, and none is pending for eosio.stake. */
  predicate RefundsOk(refunds: map<Name, Refund>) {
    forall a :: a in refunds ==> a != STAKE && RefundOk(refunds[a])
  }

  predicate RefundOk(r: Refund) {
    r.net >= 0 && r.cpu >= 0 && r.net + r.cpu > 0
  }

  /** In every reachable state: rows are positive, every receiver's resources are what was
      delegated to it, and every voter's stake is what it delegated. */
  ghost predicate Balanced(s: State) {
    && (forall k :: k in s.delegated ==> s.delegated[k].net >= 0 && s.delegated[k].cpu >= 0)
    && RefundsOk(s.refunds)
    && (forall a :: a in s.balances ==> s.balances[a] >= 0)
    && (forall r: Name :: ResourcesOf(s.resources, r).net == ReceivedNet(s.delegated, r))
    && (forall r: Name :: ResourcesOf(s.resources, r).cpu == ReceivedCpu(s.delegated, r))
    && (forall v: Name :: StakeOf(s.votes, v) == Given(s.delegated, v))
  }

  /** What eosio.stake owes beyond what it holds. */
  ghost function Owed(s: State): int {
    AllDelegated(s.delegated) + AllRefunds(s.refunds) - BalanceOf(s.balances, STAKE)
  }

  // ----- each table in turn -----

  lemma AddDelegationSums(d: Delegations, from: Name, to: Name, net: int, cpu: int, r: Name, v: Name)
    requires AddDelegation(d, from, to, net, cpu).Some?
    ensures var d' := AddDelegation(d, from, to, net, cpu).value;
            && ReceivedNet(d', r) == ReceivedNet(d, r) + (if r == to then net else 0)
            && ReceivedCpu(d', r) == ReceivedCpu(d, r) + (if r == to then cpu else 0)
            && Given(d', v) == Given(d, v) + (if v == from then net + cpu else 0)
            && AllDelegated(d') == AllDelegated(d) + net + cpu
  {
    var d' := AddDelegation(d, from, to, net, cpu).value;
    var k := (from, to);
    assert SameBut(d, d', k);
    MapSumChanges(d, d', k, (k: (Name, Name), b: Bandwidth) => if k.1 == r then b.net else 0);
    MapSumChanges(d, d', k, (k: (Name, Name), b: Bandwidth) => if k.1 == r then b.cpu else 0);
    MapSumChanges(d, d', k, (k: (Name, Name), b: Bandwidth) => if k.0 == v then b.net + b.cpu else 0);
    MapSumChanges(d, d', k, (k: (Name, Name), b: Bandwidth) => b.net + b.cpu);
  }

  lemma TransferConserves(b: map<Name, int>, from: Name, to: Name, amount: int)
    requires Transfer(b, from, to, amount).Some? && forall a :: a in b ==> b[a] >= 0
    ensures var b' := Transfer(b, from, to, amount).value;
            && AllTokens(b') == AllTokens(b)
            && (forall a :: a in b' ==> b'[a] >= 0)
            && (forall a: Name :: BalanceOf(b', a) ==
                  BalanceOf(b, a) + (if a == to then amount else if a == from then -amount else 0))
  {
    var b1 := if BalanceOf(b, from) == amount then b - {from} else b[from := b[from] - amount];
    var b' := b1[to := BalanceOf(b1, to) + amount];
    assert SameBut(b, b1, from) && SameBut(b1, b', to);
    MapSumChanges(b, b1, from, (k: Name, n: int) => n);
    MapSumChanges(b1, b', to, (k: Name, n: int) => n);
  }

  /** Refunds grow by what is undelegated and shrink by what is delegated again; the rest has to
      be paid. */
  lemma ChangeRefundConserves(refunds: map<Name, Refund>, from: Name, toSelf: bool, net: int, cpu: int, now: int)
    requires DeltasAreFormed(net, cpu) && (from != STAKE || (!toSelf && net + cpu >= 0))
    requires RefundsOk(refunds)
    ensures var (refunds', amount) := ChangeRefund(refunds, from, toSelf, net, cpu, now);
            && amount >= 0
            && AllRefunds(refunds') - AllRefunds(refunds) == amount - (net + cpu)
            && RefundsOk(refunds')
  {
    var (refunds', amount) := ChangeRefund(refunds, from, toSelf, net, cpu, now);
    assert SameBut(refunds, refunds', from);
    MapSumChanges(refunds, refunds', from, (k: Name, r: Refund) => r.net + r.cpu);
  }

  // ----- votes keep stakes -----

  ghost predicate SameStakes(votes: Voting.State, votes': Voting.State) {
    && votes'.voters.Keys == votes.voters.Keys
    && forall v :: v in votes.voters ==> votes'.voters[v].staked == votes.voters[v].staked
  }

  lemma {:induction false} PropagateKeepsStakes(votes: Voting.State, v: Name, f: real, seen: set<Name>)
    requires v in votes.voters
    ensures SameStakes(votes, Voting.Propagate(votes, v, f, seen))
    decreases votes.voters.Keys - seen
  {
    hide Voting.Weight, Voting.AddVotes;
    var x := votes.voters[v];
    var d := Voting.Weight(x, f) - x.last;
    if !Voting.Negligible(d) && x.proxy != Voting.NOBODY && x.proxy in votes.voters && x.proxy !in seen {
      PropagateKeepsStakes(Voting.ChangeProxied(votes, x.proxy, d), x.proxy, f, seen + {x.proxy});
    }
  }

  lemma LeaveKeepsStakes(votes: Voting.State, v: Name, f: real)
    requires v in votes.voters && Voting.LeaveProxy(votes, v, f).Some?
    ensures SameStakes(votes, Voting.LeaveProxy(votes, v, f).value)
  {
    hide Voting.Propagate;
    var x := votes.voters[v];
    if x.last > 0.0 && x.proxy != Voting.NOBODY {
      PropagateKeepsStakes(Voting.ChangeProxied(votes, x.proxy, -x.last), x.proxy, f, {x.proxy});
    }
  }

  lemma JoinKeepsStakes(votes: Voting.State, proxy: Name, w: real, voting: bool, f: real)
    requires Voting.JoinProxy(votes, proxy, w, voting, f).Some?
    ensures SameStakes(votes, Voting.JoinProxy(votes, proxy, w, voting, f).value)
  {
    hide Voting.Propagate;
    if proxy != Voting.NOBODY && w >= 0.0 {
      PropagateKeepsStakes(Voting.ChangeProxied(votes, proxy, w), proxy, f, {proxy});
    }
  }

  lemma UpdateVotesKeepsStakes(votes: Voting.State, v: Name, proxy: Name, producers: seq<Name>, voting: bool, f: real)
    requires Voting.UpdateVotes(votes, v, proxy, producers, voting, f).Some?
    ensures SameStakes(votes, Voting.UpdateVotes(votes, v, proxy, producers, voting, f).value)
  {
    hide Voting.LeaveProxy, Voting.JoinProxy, Voting.ApplyDeltas, Voting.WeightDelta, Voting.Weight, Voting.Sorted, Voting.MayVoteFor;
    var x := votes.voters[v];
    var votes0 := if x.last <= 0.0 then votes.(activated := votes.activated + x.staked) else votes;
    LeaveKeepsStakes(votes0, v, f);
    JoinKeepsStakes(Voting.LeaveProxy(votes0, v, f).value, proxy, Voting.Weight(x, f), voting, f);
  }

  /** A change of stake changes that stake and no other. */
  lemma ChangeStakeStakes(votes: Voting.State, v: Name, delta: int, f: real, u: Name)
    requires Voting.ChangeStake(votes, v, delta, f).Some?
    ensures StakeOf(Voting.ChangeStake(votes, v, delta, f).value, u) == StakeOf(votes, u) + (if u == v then delta else 0)
  {
    hide Voting.UpdateVotes;
    var x := if v in votes.voters then votes.voters[v] else Voting.NEW_VOTER;
    var x' := x.(staked := x.staked + delta);
    var votes' := votes.(voters := votes.voters[v := x']);
    if x'.producers != [] || x'.proxy != Voting.NOBODY {
      UpdateVotesKeepsStakes(votes', v, x'.proxy, x'.producers, false, f);
    }
  }

  // ----- conservation -----

  lemma MoveTokensConserves(s: State, source: Name, from: Name, toSelf: bool, net: int, cpu: int, now: int)
    requires MoveTokens(s, source, from, toSelf, net, cpu, now).Some? && DeltasAreFormed(net, cpu)
    requires RefundsOk(s.refunds) && (forall a :: a in s.balances ==> s.balances[a] >= 0)
    requires source != STAKE ==> from != STAKE || (!toSelf && net + cpu >= 0)
    ensures var s' := MoveTokens(s, source, from, toSelf, net, cpu, now).value;
            && RefundsOk(s'.refunds) && (forall a :: a in s'.balances ==> s'.balances[a] >= 0)
            && AllTokens(s'.balances) == AllTokens(s.balances)
            && AllRefunds(s'.refunds) - BalanceOf(s'.balances, STAKE) ==
                 AllRefunds(s.refunds) - BalanceOf(s.balances, STAKE) - (if source == STAKE then 0 else net + cpu)
            && s' == s.(refunds := s'.refunds, balances := s'.balances)
  {
    hide AllTokens, AllRefunds, RefundOk;
    if source != STAKE {
      ChangeRefundConserves(s.refunds, from, toSelf, net, cpu, now);
      var (refunds, amount) := ChangeRefund(s.refunds, from, toSelf, net, cpu, now);
      if amount > 0 {
        TransferConserves(s.balances, source, STAKE, amount);
      }
    }
  }

  lemma AddResourcesRow(t: map<Name, Resources>, r: Name, net: int, cpu: int, q: Name)
    requires AddResources(t, r, net, cpu).Some?
    ensures var t' := AddResources(t, r, net, cpu).value;
            && ResourcesOf(t', q).net == ResourcesOf(t, q).net + (if q == r then net else 0)
            && ResourcesOf(t', q).cpu == ResourcesOf(t, q).cpu + (if q == r then cpu else 0)
            && ResourcesOf(t', q).ram == ResourcesOf(t, q).ram
  {
  }

  lemma DelegationRows(d: Delegations, from: Name, to: Name, net: int, cpu: int)
    requires AddDelegation(d, from, to, net, cpu).Some?
    requires forall k :: k in d ==> d[k].net >= 0 && d[k].cpu >= 0
    ensures var d' := AddDelegation(d, from, to, net, cpu).value;
            forall k :: k in d' ==> d'[k].net >= 0 && d'[k].cpu >= 0
  {
  }

  /** Every successful change of bandwidth keeps the tables balanced and creates no token; the
      debt of eosio.stake changes only by what eosio.stake delegates itself. */
  lemma ChangeBwConserves(s: State, source: Name, receiver: Name, net: int, cpu: int, transfer: bool, now: int, f: real)
    requires Balanced(s) && ChangeBw(s, source, receiver, net, cpu, transfer, now, f).Some?
    requires transfer ==> net + cpu >= 0
    ensures var s' := ChangeBw(s, source, receiver, net, cpu, transfer, now, f).value;
            && Balanced(s')
            && AllTokens(s'.balances) == AllTokens(s.balances)
            && Owed(s') == Owed(s) + (if source == STAKE then net + cpu else 0)
  {
    hide AllTokens, AllRefunds, RefundsOk, ReceivedNet, ReceivedCpu, Given, AllDelegated, MoveTokens, AddDelegation, AddResources, DeltasAreFormed, Voting.ChangeStake, StakeOf, ResourcesOf, BalanceOf;
    var from := if transfer then receiver else source;
    var s' := ChangeBw(s, source, receiver, net, cpu, transfer, now, f).value;
    MoveTokensConserves(s, source, from, !transfer && from == receiver, net, cpu, now);
    DelegationRows(s.delegated, from, receiver, net, cpu);
    AddDelegationSums(s.delegated, from, receiver, net, cpu, 0, 0);
    forall r: Name
      ensures ResourcesOf(s'.resources, r).net == ReceivedNet(s'.delegated, r)
      ensures ResourcesOf(s'.resources, r).cpu == ReceivedCpu(s'.delegated, r)
      ensures StakeOf(s'.votes, r) == Given(s'.delegated, r)
    {
      AddDelegationSums(s.delegated, from, receiver, net, cpu, r, r);
      AddResourcesRow(s.resources, receiver, net, cpu, r);
      ChangeStakeStakes(s.votes, from, net + cpu, f, r);
    }
  }

  /** A refund pays out exactly what was pending. */
  lemma ClaimRefundConserves(s: State, owner: Name, now: int, delay: int)
    requires Balanced(s) && ClaimRefund(s, owner, now, delay).Some?
    ensures var s' := ClaimRefund(s, owner, now, delay).value;
            && Balanced(s') && AllTokens(s'.balances) == AllTokens(s.balances) && Owed(s') == Owed(s)
            && BalanceOf(s'.balances, owner) == BalanceOf(s.balances, owner) + s.refunds[owner].net + s.refunds[owner].cpu
  {
    hide AllTokens, AllRefunds, ReceivedNet, ReceivedCpu, Given, AllDelegated, StakeOf, ResourcesOf, BalanceOf;
    TransferConserves(s.balances, STAKE, owner, s.refunds[owner].net + s.refunds[owner].cpu);
    RefundErased(s.refunds, owner);
  }

  lemma RefundErased(refunds: map<Name, Refund>, owner: Name)
    requires owner in refunds
    ensures AllRefunds(refunds - {owner}) == AllRefunds(refunds) - (refunds[owner].net + refunds[owner].cpu)
  {
    assert SameBut(refunds, refunds - {owner}, owner);
    MapSumChanges(refunds, refunds - {owner}, owner, (k: Name, r: Refund) => r.net + r.cpu);
  }

  /** As long as eosio.stake owes no more than it holds, a refund fails only for being claimed
      too early or not being there. */
  lemma RefundIsPaid(s: State, owner: Name, now: int, delay: int)
    requires Balanced(s) && Owed(s) <= 0
    ensures ClaimRefund(s, owner, now, delay).Some? <==> owner in s.refunds && s.refunds[owner].time + delay <= now
  {
    if owner in s.refunds {
      MapSumIsNonNegative(s.delegated, (k: (Name, Name), b: Bandwidth) => b.net + b.cpu);
      RefundErased(s.refunds, owner);
      MapSumIsNonNegative(s.refunds - {owner}, (k: Name, r: Refund) => r.net + r.cpu);
    }
  }

  /** Staking for oneself first uses up what is pending as a refund, each kind for itself, and
      only the rest is taken from the balance. */
  lemma SelfStakeUsesRefundFirst(s: State, a: Name, net: int, cpu: int, now: int, f: real)
    requires Balanced(s) && a != STAKE && a in s.refunds
    requires DelegateBw(s, a, a, net, cpu, false, now, f).Some?
    ensures var s' := DelegateBw(s, a, a, net, cpu, false, now, f).value;
            var pending := s.refunds[a];
            && BalanceOf(s'.balances, a) == BalanceOf(s.balances, a) - Max(0, net - pending.net) - Max(0, cpu - pending.cpu)
            && (a in s'.refunds <==> net < pending.net || cpu < pending.cpu)
            && (a in s'.refunds ==>
                  s'.refunds[a] == Refund(pending.time, Max(0, pending.net - net), Max(0, pending.cpu - cpu)))
  {
    hide ReceivedNet, ReceivedCpu, Given, Voting.ChangeStake, AddDelegation, AddResources;
    var (refunds, amount) := ChangeRefund(s.refunds, a, true, net, cpu, now);
    if amount > 0 {
      TransferConserves(s.balances, a, STAKE, amount);
    }
  }
}
