/** What delegating, undelegating and claiming a refund do to every row of every table, and exactly
    when they succeed. */
module StakingEffects {
  import opened Staking
  import Voting
  import MapSums

  /** What is left of `pending` after `amount` was taken out, and what was not covered. */
  function Less(pending: int, amount: int): int {
    if pending <= amount then 0 else pending - amount
  }

  /** The pending refund of an account. */
  function RefundOf(refunds: map<Name, Refund>, a: Name): Bandwidth {
    if a in refunds then Bandwidth(refunds[a].net, refunds[a].cpu) else Bandwidth(0, 0)
  }

  /** The account that owns the stake. */
  function Owner(source: Name, receiver: Name, transfer: bool): Name {
    if transfer then receiver else source
  }

  /** What staking takes from the balance of the source: all of it, or for a stake in oneself what one's
      own refund does not cover, net and cpu apart. */
  function Due(s: State, source: Name, receiver: Name, net: int, cpu: int, transfer: bool): int {
    if !transfer && source == receiver then
      var r := RefundOf(s.refunds, source);
      Less(net, r.net) + Less(cpu, r.cpu)
    else net + cpu
  }

  // ----- stakes, delegations and resources -----

  /** The delegation of the owner to the receiver, the receiver's resources and the owner's stake
      change by the amounts, and no other does. */
  ghost predicate StakeMoves(s: State, s': State, owner: Name, receiver: Name, net: int, cpu: int) {
    && (forall a: Name, b: Name :: Delegated(s'.delegated, a, b) ==
          var d := Delegated(s.delegated, a, b);
          if a == owner && b == receiver then Bandwidth(d.net + net, d.cpu + cpu) else d)
    && (forall b: Name :: ResourcesOf(s'.resources, b) ==
          var t := ResourcesOf(s.resources, b);
          if b == receiver then Resources(t.net + net, t.cpu + cpu, t.ram) else t)
    && (forall a: Name :: StakeOf(s'.votes, a) == StakeOf(s.votes, a) + (if a == owner then net + cpu else 0))
  }

  lemma ChangeMovesStake(s: State, source: Name, receiver: Name, net: int, cpu: int, transfer: bool, now: int, f: real)
    requires ChangeBw(s, source, receiver, net, cpu, transfer, now, f).Some?
    ensures StakeMoves(s, ChangeBw(s, source, receiver, net, cpu, transfer, now, f).value, Owner(source, receiver, transfer), receiver, net, cpu)
  {
    hide Voting.ChangeStake, MoveTokens, StakeOf;
    var owner := Owner(source, receiver, transfer);
    forall a: Name ensures StakeOf(Voting.ChangeStake(s.votes, owner, net + cpu, f).value, a)
                           == StakeOf(s.votes, a) + (if a == owner then net + cpu else 0)
    {
      ChangeStakeStakes(s.votes, owner, net + cpu, f, a);
    }
  }

  // ----- balances and refunds -----

  /** The tokens move from `from` to `to`, and every other balance stays. */
  ghost predicate Pays(b: map<Name, int>, b': map<Name, int>, from: Name, to: Name, amount: int) {
    forall a: Name :: BalanceOf(b', a) == BalanceOf(b, a) + (if a == to then amount else 0) - (if a == from then amount else 0)
  }

  lemma TransferPays(b: map<Name, int>, from: Name, to: Name, amount: int)
    ensures Transfer(b, from, to, amount).Some? <==> from != to && amount > 0 && BalanceOf(b, from) >= amount
    ensures Transfer(b, from, to, amount).Some? ==> Pays(b, Transfer(b, from, to, amount).value, from, to, amount)
  {
  }

  lemma NothingPaid(b: map<Name, int>, from: Name, to: Name)
    ensures Pays(b, b, from, to, 0)
  {
  }

  /** The refunds of all other accounts stay; this one has the given amounts pending, and a row exactly
      when they are not both zero. */
  ghost predicate RefundIs(refunds: map<Name, Refund>, refunds': map<Name, Refund>, a: Name, net: int, cpu: int) {
    && RefundOf(refunds', a) == Bandwidth(net, cpu) && (a in refunds' <==> net != 0 || cpu != 0)
    && (forall x :: x != a ==> (x in refunds <==> x in refunds'))
    && (forall x :: x in refunds && x != a ==> refunds'[x] == refunds[x])
  }

  ghost predicate SameRefunds(s: State, s': State) {
    s'.refunds == s.refunds
  }

  /** Staking: the source pays what its own refund does not cover, and a refund it draws on keeps its
      time. eosio.stake pays nothing. */
  lemma DelegateEffect(s: State, source: Name, receiver: Name, net: int, cpu: int, transfer: bool, now: int, f: real)
    requires Balanced(s) && DelegateBw(s, source, receiver, net, cpu, transfer, now, f).Some?
    ensures var s' := DelegateBw(s, source, receiver, net, cpu, transfer, now, f).value;
            && StakeMoves(s, s', Owner(source, receiver, transfer), receiver, net, cpu)
            && Pays(s.balances, s'.balances, source, STAKE, if source == STAKE then 0 else Due(s, source, receiver, net, cpu, transfer))
            && (source == STAKE || transfer || source != receiver ==> SameRefunds(s, s'))
            && (source != STAKE && !transfer && source == receiver ==>
                  var r := RefundOf(s.refunds, source);
                  && RefundIs(s.refunds, s'.refunds, source, Less(r.net, net), Less(r.cpu, cpu))
                  && (source in s'.refunds ==> source in s.refunds && s'.refunds[source].time == s.refunds[source].time))
  {
    hide Voting.ChangeStake, AddDelegation, AddResources, Transfer, Pays, AllRefunds, ReceivedNet, ReceivedCpu, Given, StakeOf, StakeMoves;
    ChangeMovesStake(s, source, receiver, net, cpu, transfer, now, f);
    var due := Due(s, source, receiver, net, cpu, transfer);
    TransferPays(s.balances, source, STAKE, due);
    NothingPaid(s.balances, source, STAKE);
  }

  /** Unstaking: nobody pays, and the source has the amounts added to its refund, requested now. */
  lemma UndelegateEffect(s: State, source: Name, receiver: Name, net: int, cpu: int, minActivated: int, now: int, f: real)
    requires Balanced(s) && UndelegateBw(s, source, receiver, net, cpu, minActivated, now, f).Some?
    ensures var s' := UndelegateBw(s, source, receiver, net, cpu, minActivated, now, f).value;
            && StakeMoves(s, s', source, receiver, -net, -cpu) && s'.balances == s.balances
            && (source == STAKE ==> SameRefunds(s, s'))
            && (source != STAKE ==>
                  var r := RefundOf(s.refunds, source);
                  RefundIs(s.refunds, s'.refunds, source, r.net + net, r.cpu + cpu) && s'.refunds[source].time == now)
  {
    hide Voting.ChangeStake, AddDelegation, AddResources, Transfer, AllRefunds, ReceivedNet, ReceivedCpu, Given, StakeOf, StakeMoves;
    ChangeMovesStake(s, source, receiver, -net, -cpu, false, now, f);
  }

  /** Claiming: the refund goes from eosio.stake to its owner, and its row goes. */
  lemma ClaimEffect(s: State, owner: Name, now: int, delay: int)
    ensures ClaimRefund(s, owner, now, delay).Some? <==>
              && owner in s.refunds && s.refunds[owner].time + delay <= now && owner != STAKE
              && 0 < s.refunds[owner].net + s.refunds[owner].cpu <= BalanceOf(s.balances, STAKE)
    ensures ClaimRefund(s, owner, now, delay).Some? ==>
              var s' := ClaimRefund(s, owner, now, delay).value;
              && Pays(s.balances, s'.balances, STAKE, owner, s.refunds[owner].net + s.refunds[owner].cpu)
              && RefundIs(s.refunds, s'.refunds, owner, 0, 0)
              && s'.delegated == s.delegated && s'.resources == s.resources && s'.votes == s.votes
  {
    hide Transfer, Pays;
    if owner in s.refunds {
      TransferPays(s.balances, STAKE, owner, s.refunds[owner].net + s.refunds[owner].cpu);
    }
  }

  // ----- exactly when -----

  lemma ReceivedAtLeast(s: State, a: Name, b: Name)
    requires Balanced(s)
    ensures var d, t := Delegated(s.delegated, a, b), ResourcesOf(s.resources, b);
            0 <= d.net <= t.net && 0 <= d.cpu <= t.cpu
  {
    hide RefundsOk, Given, StakeOf;
    DelegatedIsPart(s.delegated, a, b);
  }

  lemma DelegatedIsPart(d: Delegations, a: Name, b: Name)
    requires forall k :: k in d ==> d[k].net >= 0 && d[k].cpu >= 0
    ensures 0 <= Delegated(d, a, b).net <= ReceivedNet(d, b) && 0 <= Delegated(d, a, b).cpu <= ReceivedCpu(d, b)
  {
    var k := (a, b);
    var rest := d - {k};
    NonNegative(rest, b);
    NonNegative(d, b);
    if k in d {
      var back := AddDelegation(rest, a, b, d[k].net, d[k].cpu).value;
      AddDelegationSums(rest, a, b, d[k].net, d[k].cpu, b, a);
      if d[k] == Bandwidth(0, 0) {
      } else {
        assert back == d;
      }
    }
  }

  lemma NonNegative(d: Delegations, b: Name)
    requires forall k :: k in d ==> d[k].net >= 0 && d[k].cpu >= 0
    ensures ReceivedNet(d, b) >= 0 && ReceivedCpu(d, b) >= 0
  {
    MapSums.MapSumIsNonNegative(d, (k: (Name, Name), w: Bandwidth) => if k.1 == b then w.net else 0);
    MapSums.MapSumIsNonNegative(d, (k: (Name, Name), w: Bandwidth) => if k.1 == b then w.cpu else 0);
  }

  /** Staking succeeds exactly when the amounts are not negative and not both zero, stake is not given
      to oneself, the source can pay what is due, and the votes can be counted again. */
  lemma DelegateSucceedsIff(s: State, source: Name, receiver: Name, net: int, cpu: int, transfer: bool, now: int, f: real)
    requires Balanced(s)
    ensures DelegateBw(s, source, receiver, net, cpu, transfer, now, f).Some? <==>
              && net >= 0 && cpu >= 0 && net + cpu > 0 && !(transfer && source == receiver)
              && (source == STAKE || Due(s, source, receiver, net, cpu, transfer) <= BalanceOf(s.balances, source))
              && Voting.ChangeStake(s.votes, Owner(source, receiver, transfer), net + cpu, f).Some?
  {
    hide Voting.ChangeStake, MoveTokens, Balanced, Due;
    ReceivedAtLeast(s, Owner(source, receiver, transfer), receiver);
    if net >= 0 && cpu >= 0 && net + cpu > 0 {
      MoveSucceedsIff(s, source, receiver, net, cpu, transfer, now);
    }
  }

  lemma MoveSucceedsIff(s: State, source: Name, receiver: Name, net: int, cpu: int, transfer: bool, now: int)
    requires Balanced(s) && net >= 0 && cpu >= 0 && net + cpu > 0
    ensures var owner := Owner(source, receiver, transfer);
            MoveTokens(s, source, owner, !transfer && owner == receiver, net, cpu, now).Some? <==>
              source == STAKE || Due(s, source, receiver, net, cpu, transfer) <= BalanceOf(s.balances, source)
  {
    hide Transfer, Balanced;
    RefundRow(s, source);
    TransferPays(s.balances, source, STAKE, Due(s, source, receiver, net, cpu, transfer));
    BalanceIsNonNegative(s, source);
  }

  lemma RefundRow(s: State, a: Name)
    requires Balanced(s)
    ensures RefundOf(s.refunds, a).net >= 0 && RefundOf(s.refunds, a).cpu >= 0
  {
    hide Given, StakeOf, ReceivedNet, ReceivedCpu;
  }

  lemma BalanceIsNonNegative(s: State, a: Name)
    requires Balanced(s)
    ensures BalanceOf(s.balances, a) >= 0
  {
    hide RefundsOk, Given, StakeOf, ReceivedNet, ReceivedCpu;
  }

  /** Unstaking succeeds exactly when the amounts are not negative and not both zero, enough stake was
      ever activated, the source delegated that much to the receiver, and the votes can be counted
      again. */
  lemma UndelegateSucceedsIff(s: State, source: Name, receiver: Name, net: int, cpu: int, minActivated: int, now: int, f: real)
    requires Balanced(s)
    ensures UndelegateBw(s, source, receiver, net, cpu, minActivated, now, f).Some? <==>
              var d := Delegated(s.delegated, source, receiver);
              && 0 <= net <= d.net && 0 <= cpu <= d.cpu && net + cpu > 0 && s.votes.activated >= minActivated
              && Voting.ChangeStake(s.votes, source, -(net + cpu), f).Some?
  {
    hide Voting.ChangeStake, Transfer, AllRefunds, ReceivedNet, ReceivedCpu, Given, StakeOf;
    ReceivedAtLeast(s, source, receiver);
  }

  // ----- rows -----

  /** A row that becomes empty is erased: the delegation, the receiver's resources, the payer's balance. */
  lemma EmptyRowsGo(s: State, source: Name, receiver: Name, net: int, cpu: int, transfer: bool, now: int, f: real)
    requires ChangeBw(s, source, receiver, net, cpu, transfer, now, f).Some?
    ensures var s', owner := ChangeBw(s, source, receiver, net, cpu, transfer, now, f).value, Owner(source, receiver, transfer);
            && ((owner, receiver) in s'.delegated <==> Delegated(s'.delegated, owner, receiver) != Bandwidth(0, 0))
            && (receiver in s'.resources <==> ResourcesOf(s'.resources, receiver) != Resources(0, 0, 0))
            && (s'.balances != s.balances ==> (source in s'.balances <==> BalanceOf(s'.balances, source) != 0))
  {
    hide Voting.ChangeStake, ChangeRefund;
  }
}
