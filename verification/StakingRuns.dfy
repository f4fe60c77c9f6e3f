/** Whole runs of staking and voting actions: no token appears or vanishes, the tables stay
    balanced, and eosio.stake holds what it owes. */
module StakingRuns {
  import opened Options
  import opened Staking
  import Voting
  import VotingRuns

  datatype Action =
    | Delegate(source: Name, receiver: Name, net: int, cpu: int, transfer: bool)
    | Undelegate(source: Name, receiver: Name, net: int, cpu: int)
    | Claim(owner: Name)
    | Cast(action: VotingRuns.Action)

  /** The circumstances of an action: time, factor from stake to weight, and parameters. */
  datatype Moment = Moment(now: int, factor: real, delay: int, minActivated: int)

  function OrElse(o: Option<State>, s: State): State {
    if o.Some? then o.value else s
  }

  /** Stakes change through delegation only. */
  predicate IsBallot(a: VotingRuns.Action) {
    !a.Stake?
  }

  function Step(s: State, a: Action, m: Moment): State {
    match a
    case Delegate(source, receiver, net, cpu, transfer) =>
      OrElse(DelegateBw(s, source, receiver, net, cpu, transfer, m.now, m.factor), s)
    case Undelegate(source, receiver, net, cpu) =>
      OrElse(UndelegateBw(s, source, receiver, net, cpu, m.minActivated, m.now, m.factor), s)
    case Claim(owner) => OrElse(ClaimRefund(s, owner, m.now, m.delay), s)
    case Cast(b) => if IsBallot(b) then s.(votes := VotingRuns.Step(s.votes, b, m.factor)) else s
  }

  /** What eosio.stake delegates on its own account, which no transfer backs. */
  function OwnDelegation(s: State, a: Action, m: Moment): int {
    match a
    case Delegate(source, receiver, net, cpu, transfer) =>
      if source == STAKE && DelegateBw(s, source, receiver, net, cpu, transfer, m.now, m.factor).Some? then net + cpu else 0
    case Undelegate(source, receiver, net, cpu) =>
      if source == STAKE && UndelegateBw(s, source, receiver, net, cpu, m.minActivated, m.now, m.factor).Some? then -(net + cpu) else 0
    case Claim(owner) => 0
    case Cast(b) => 0
  }

  function Run(s: State, actions: seq<(Action, Moment)>): State {
    if actions == [] then s
    else
      var (a, m) := actions[|actions| - 1];
      Step(Run(s, actions[..|actions| - 1]), a, m)
  }

  function OwnDelegations(s: State, actions: seq<(Action, Moment)>): int {
    if actions == [] then 0
    else
      var (a, m) := actions[|actions| - 1];
      OwnDelegations(s, actions[..|actions| - 1]) + OwnDelegation(Run(s, actions[..|actions| - 1]), a, m)
  }

  lemma BallotKeepsStakes(votes: Voting.State, b: VotingRuns.Action, f: real, u: Name)
    requires IsBallot(b)
    ensures StakeOf(VotingRuns.Step(votes, b, f), u) == StakeOf(votes, u)
  {
    hide Voting.UpdateVotes, Voting.Propagate;
    match b
    case RegisterProducer(p) =>
    case UnregisterProducer(p) =>
    case RegisterProxy(p, flag) =>
      if p in votes.voters {
        PropagateKeepsStakes(votes.(voters := votes.voters[p := votes.voters[p].(isProxy := flag)]), p, f, {p});
      }
    case Vote(v, proxy, list) =>
      if Voting.VoteProducer(votes, v, proxy, list, f).Some? {
        UpdateVotesKeepsStakes(votes, v, proxy, list, true, f);
      }
  }

  lemma StepConserves(s: State, a: Action, m: Moment)
    requires Balanced(s)
    ensures var s' := Step(s, a, m);
            && Balanced(s') && AllTokens(s'.balances) == AllTokens(s.balances)
            && Owed(s') == Owed(s) + OwnDelegation(s, a, m)
  {
    hide AllTokens, AllRefunds, AllDelegated, ReceivedNet, ReceivedCpu, Given, ChangeBw, ClaimRefund, RefundsOk, StakeOf,
         ResourcesOf, BalanceOf, VotingRuns.Step;
    match a
    case Delegate(source, receiver, net, cpu, transfer) =>
      if DelegateBw(s, source, receiver, net, cpu, transfer, m.now, m.factor).Some? {
        ChangeBwConserves(s, source, receiver, net, cpu, transfer, m.now, m.factor);
      }
    case Undelegate(source, receiver, net, cpu) =>
      if UndelegateBw(s, source, receiver, net, cpu, m.minActivated, m.now, m.factor).Some? {
        ChangeBwConserves(s, source, receiver, -net, -cpu, false, m.now, m.factor);
      }
    case Claim(owner) =>
      if ClaimRefund(s, owner, m.now, m.delay).Some? {
        ClaimRefundConserves(s, owner, m.now, m.delay);
      }
    case Cast(b) =>
      if IsBallot(b) {
        forall v: Name
          ensures StakeOf(VotingRuns.Step(s.votes, b, m.factor), v) == Given(s.delegated, v)
        {
          BallotKeepsStakes(s.votes, b, m.factor, v);
        }
      }
  }

  /** Over every run the tokens are conserved, the tables stay balanced, and the debt of
      eosio.stake grows by exactly what it delegated on its own account. */
  lemma {:induction false} RunConserves(s: State, actions: seq<(Action, Moment)>)
    requires Balanced(s)
    ensures var s' := Run(s, actions);
            && Balanced(s') && AllTokens(s'.balances) == AllTokens(s.balances)
            && Owed(s') == Owed(s) + OwnDelegations(s, actions)
  {
    hide Balanced, AllTokens, Owed, Step, OwnDelegation;
    if actions != [] {
      var (a, m) := actions[|actions| - 1];
      RunConserves(s, actions[..|actions| - 1]);
      StepConserves(Run(s, actions[..|actions| - 1]), a, m);
    }
  }

  /** If eosio.stake starts without debt and never delegates on its own account, then after
      every run each refund that is due can be claimed. */
  lemma RefundsStayPayable(s: State, actions: seq<(Action, Moment)>, owner: Name, m: Moment)
    requires Balanced(s) && Owed(s) <= 0 && OwnDelegations(s, actions) <= 0
    ensures var s' := Run(s, actions);
            ClaimRefund(s', owner, m.now, m.delay).Some? <==>
              owner in s'.refunds && s'.refunds[owner].time + m.delay <= m.now
  {
    hide Balanced, AllTokens, Owed, Run, OwnDelegations, ClaimRefund;
    RunConserves(s, actions);
    RefundIsPaid(Run(s, actions), owner, m.now, m.delay);
  }

  /** Before the first action: tokens were issued, and nothing is staked, delegated or voted. */
  function Start(balances: map<Name, int>): State {
    State(map[], map[], map[], balances, VotingRuns.EMPTY)
  }

  lemma StartIsBalanced(balances: map<Name, int>)
    requires forall a :: a in balances ==> balances[a] >= 0
    ensures Balanced(Start(balances)) && Owed(Start(balances)) == -BalanceOf(balances, STAKE)
  {
    NothingDelegated();
  }

  lemma NothingDelegated()
    ensures AllDelegated(map[]) == 0 && AllRefunds(map[]) == 0
    ensures forall a :: ReceivedNet(map[], a) == 0 && ReceivedCpu(map[], a) == 0 && Given(map[], a) == 0
  {
  }

  /** From the first action on: tokens are conserved, and as long as eosio.stake has not delegated
      more on its own account than it was issued, every refund that is due can be claimed. */
  lemma RefundsArePaid(balances: map<Name, int>, actions: seq<(Action, Moment)>, owner: Name, m: Moment)
    requires forall a :: a in balances ==> balances[a] >= 0
    requires OwnDelegations(Start(balances), actions) <= BalanceOf(balances, STAKE)
    ensures var s' := Run(Start(balances), actions);
            && Balanced(s') && AllTokens(s'.balances) == AllTokens(balances)
            && (ClaimRefund(s', owner, m.now, m.delay).Some? <==>
                owner in s'.refunds && s'.refunds[owner].time + m.delay <= m.now)
  {
    hide Balanced, AllTokens, Owed, Run, OwnDelegations, ClaimRefund, BalanceOf;
    StartIsBalanced(balances);
    RunConserves(Start(balances), actions);
    RefundIsPaid(Run(Start(balances), actions), owner, m.now, m.delay);
  }

  // ----- what eosio.stake may not be able to pay -----

  const EARLY := Moment(0, 10.0, 0, 0)

  /** eosio.stake delegates for account 6 and hands the stake over, and account 6 takes it back. */
  const UNBACKED: seq<(Action, Moment)> := [(Delegate(STAKE, 6, 10, 0, true), EARLY), (Undelegate(6, 6, 10, 0), EARLY)]

  function AfterUnbacked(): State {
    State(map[], map[], map[6 := Refund(0, 10, 0)], map[], Voting.State(map[6 := Voting.NEW_VOTER], map[], 0.0, 0))
  }

  function WhileUnbacked(): State {
    State(map[(6, 6) := Bandwidth(10, 0)], map[6 := Resources(10, 0, 0)], map[], map[],
          Voting.State(map[6 := Voting.NEW_VOTER.(staked := 10)], map[], 0.0, 0))
  }

  lemma FirstUnbacked()
    ensures Step(Start(map[]), UNBACKED[0].0, EARLY) == WhileUnbacked()
  {
  }

  lemma SecondUnbacked()
    ensures Step(WhileUnbacked(), UNBACKED[1].0, EARLY) == AfterUnbacked()
  {
  }

  /** A run after which a refund is due, in balanced tables, and cannot be claimed. */
  lemma RefundMayBeRefused()
    ensures var s := Run(Start(map[]), UNBACKED);
            && Balanced(s) && 6 in s.refunds && s.refunds[6].time <= 0 && Owed(s) == 10
            && ClaimRefund(s, 6, 0, 0) == None
  {
    hide Step, Balanced, Owed;
    FirstUnbacked();
    SecondUnbacked();
    assert UNBACKED[..1][..0] == [] && UNBACKED[..1][0] == UNBACKED[0];
    assert Run(Start(map[]), UNBACKED[..1]) == WhileUnbacked();
    assert Run(Start(map[]), UNBACKED) == AfterUnbacked();
    StartIsBalanced(map[]);
    RunConserves(Start(map[]), UNBACKED);
    UnbackedIsOwed();
  }

  lemma UnbackedIsOwed()
    ensures Owed(AfterUnbacked()) == 10
  {
    var refunds := AfterUnbacked().refunds;
    RefundErased(refunds, 6);
    assert refunds - {6} == map[];
    NothingDelegated();
  }
}
