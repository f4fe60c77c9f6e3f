/** The staking tables as an object changed step by step, sharing the voting tables with the
    contract that keeps them. Each action is proved to have exactly the effect of the function
    that describes it; a failed action leaves every table as it was. */
module StakingContract {
  import opened Options
  import opened Staking
  import SystemContract
  import Voting
  import VotingForm

  class Tables {
    var delegated: Delegations
    var resources: map<Name, Resources>
    var refunds: map<Name, Refund>
    var balances: map<Name, int>
    const voting: SystemContract.Contract

    function Value(): State
      reads this, voting
    {
      State(delegated, resources, refunds, balances, voting.Votes())
    }

    ghost predicate Valid()
      reads this, voting
    {
      VotingForm.Form(voting.Votes())
    }

    constructor (voting: SystemContract.Contract, balances: map<Name, int>)
      ensures this.voting == voting && Value() == State(map[], map[], map[], balances, voting.Votes())
    {
      this.voting := voting;
      this.balances := balances;
      delegated, resources, refunds := map[], map[], map[];
    }

    /** Changes the row for `from` and `to`. */
    method ChangeDelegation(from: Name, to: Name, net: int, cpu: int) returns (ok: bool)
      modifies this`delegated
      ensures ok <==> AddDelegation(old(delegated), from, to, net, cpu).Some?
      ensures ok ==> delegated == AddDelegation(old(delegated), from, to, net, cpu).value
    {
      var key := (from, to);
      if key !in delegated {
        delegated := delegated[key := Bandwidth(net, cpu)];
      } else {
        delegated := delegated[key := Bandwidth(delegated[key].net + net, delegated[key].cpu + cpu)];
      }
      if delegated[key].net < 0 || delegated[key].cpu < 0 {
        return false;
      }
      if delegated[key].net == 0 && delegated[key].cpu == 0 {
        delegated := delegated - {key};
      }
      ok := true;
    }

    /** Changes the totals of `receiver`. */
    method ChangeResources(receiver: Name, net: int, cpu: int) returns (ok: bool)
      modifies this`resources
      ensures ok <==> AddResources(old(resources), receiver, net, cpu).Some?
      ensures ok ==> resources == AddResources(old(resources), receiver, net, cpu).value
    {
      if receiver !in resources {
        resources := resources[receiver := Resources(net, cpu, 0)];
      } else {
        var t := resources[receiver];
        resources := resources[receiver := t.(net := t.net + net, cpu := t.cpu + cpu)];
      }
      var t := resources[receiver];
      if t.net < 0 || t.cpu < 0 {
        return false;
      }
      if t.net == 0 && t.cpu == 0 && t.ram == 0 {
        resources := resources - {receiver};
      }
      ok := true;
    }

    /** Creates, updates or erases the refund of `from`; the result is still to be paid. */
    method UpdateRefund(from: Name, toSelf: bool, net: int, cpu: int, now: int) returns (amount: int)
      modifies this`refunds
      ensures (refunds, amount) == ChangeRefund(old(refunds), from, toSelf, net, cpu, now)
    {
      var netBalance, cpuBalance := net, cpu;
      var isUndelegating := net + cpu < 0;
      if toSelf || isUndelegating {
        if from in refunds {
          var r := refunds[from];
          if netBalance < 0 || cpuBalance < 0 {
            r := r.(time := now);
          }
          r := r.(net := r.net - netBalance);
          if r.net < 0 {
            netBalance := -r.net;
            r := r.(net := 0);
          } else {
            netBalance := 0;
          }
          r := r.(cpu := r.cpu - cpuBalance);
          if r.cpu < 0 {
            cpuBalance := -r.cpu;
            r := r.(cpu := 0);
          } else {
            cpuBalance := 0;
          }
          if r.net == 0 && r.cpu == 0 {
            refunds := refunds - {from};
          } else {
            refunds := refunds[from := r];
          }
        } else if netBalance < 0 || cpuBalance < 0 {
          var r := Refund(now, 0, 0);
          if netBalance < 0 {
            r, netBalance := r.(net := -netBalance), 0;
          }
          if cpuBalance < 0 {
            r, cpuBalance := r.(cpu := -cpuBalance), 0;
          }
          refunds := refunds[from := r];
        }
      }
      amount := netBalance + cpuBalance;
    }

    /** The token contract's `transfer`. */
    method Pay(from: Name, to: Name, amount: int) returns (ok: bool)
      modifies this`balances
      ensures ok <==> Transfer(old(balances), from, to, amount).Some?
      ensures balances == if ok then Transfer(old(balances), from, to, amount).value else old(balances)
      ensures ok ==> from != to && amount > 0
      ensures ok ==> forall a :: BalanceOf(balances, a) - BalanceOf(old(balances), a) == if a == to then amount else if a == from then -amount else 0
    {
      if from == to || amount <= 0 || from !in balances || balances[from] < amount {
        return false;
      }
      if balances[from] == amount {
        balances := balances - {from};
      } else {
        balances := balances[from := balances[from] - amount];
      }
      if to !in balances {
        balances := balances[to := amount];
      } else {
        balances := balances[to := balances[to] + amount];
      }
      ok := true;
    }

    /** The part of `changebw` about refunds and tokens. */
    method Settle(source: Name, from: Name, toSelf: bool, net: int, cpu: int, now: int) returns (ok: bool)
      modifies this`refunds, this`balances
      ensures ok <==> MoveTokens(old(Value()), source, from, toSelf, net, cpu, now).Some?
      ensures ok ==> Value() == MoveTokens(old(Value()), source, from, toSelf, net, cpu, now).value
      ensures ok ==> forall a :: a != source && a != STAKE ==> BalanceOf(balances, a) == BalanceOf(old(balances), a)
      ensures ok && source != STAKE ==>
                BalanceOf(old(balances), source) - BalanceOf(balances, source) == BalanceOf(balances, STAKE) - BalanceOf(old(balances), STAKE)
      ensures ok && source == STAKE ==> refunds == old(refunds) && balances == old(balances)
    {
      hide ChangeRefund, Transfer;
      ok := true;
      if source != STAKE {
        var amount := UpdateRefund(from, toSelf, net, cpu, now);
        if amount > 0 {
          ok := Pay(source, STAKE, amount);
        }
      }
    }

    method Restore(d: Delegations, t: map<Name, Resources>, r: map<Name, Refund>, b: map<Name, int>)
      modifies this
      ensures delegated == d && resources == t && refunds == r && balances == b
    {
      delegated, resources, refunds, balances := d, t, r, b;
    }

    /** `changebw`. */
    method Change(source: Name, receiver: Name, net: int, cpu: int, transfer: bool, now: int, f: real) returns (ok: bool)
      requires Valid()
      modifies this, voting
      ensures Valid()
      ensures ok <==> ChangeBw(old(Value()), source, receiver, net, cpu, transfer, now, f).Some?
      ensures Value() == if ok then ChangeBw(old(Value()), source, receiver, net, cpu, transfer, now, f).value else old(Value())
    {
      hide AddDelegation, AddResources, MoveTokens, Voting.ChangeStake, VotingForm.Form, DeltasAreFormed, ChangeBw;
      ChangeBwParts(Value(), source, receiver, net, cpu, transfer, now, f);
      if !DeltasAreFormed(net, cpu) {
        return false;
      }
      var d, t, r, b := delegated, resources, refunds, balances;
      var from := if transfer then receiver else source;
      ok := ChangeDelegation(from, receiver, net, cpu);
      if ok {
        ok := ChangeResources(receiver, net, cpu);
      }
      if ok {
        ok := Settle(source, from, !transfer && from == receiver, net, cpu, now);
      }
      if ok {
        ok := voting.StakeChanges(from, net + cpu, f);
      }
      if !ok {
        Restore(d, t, r, b);
      }
    }

    method Delegate(source: Name, receiver: Name, net: int, cpu: int, transfer: bool, now: int, f: real) returns (ok: bool)
      requires Valid()
      modifies this, voting
      ensures Valid()
      ensures ok <==> DelegateBw(old(Value()), source, receiver, net, cpu, transfer, now, f).Some?
      ensures Value() == if ok then DelegateBw(old(Value()), source, receiver, net, cpu, transfer, now, f).value else old(Value())
    {
      hide ChangeBw;
      if cpu < 0 || net < 0 || net + cpu <= 0 || (transfer && source == receiver) {
        return false;
      }
      ok := Change(source, receiver, net, cpu, transfer, now, f);
    }

    method Undelegate(source: Name, receiver: Name, net: int, cpu: int, minActivated: int, now: int, f: real) returns (ok: bool)
      requires Valid()
      modifies this, voting
      ensures Valid()
      ensures ok <==> UndelegateBw(old(Value()), source, receiver, net, cpu, minActivated, now, f).Some?
      ensures Value() ==
                if ok then UndelegateBw(old(Value()), source, receiver, net, cpu, minActivated, now, f).value else old(Value())
    {
      hide ChangeBw;
      if cpu < 0 || net < 0 || net + cpu <= 0 || voting.totalActivatedStake < minActivated {
        return false;
      }
      ok := Change(source, receiver, -net, -cpu, false, now, f);
    }

    method Claim(owner: Name, now: int, delay: int) returns (ok: bool)
      modifies this`refunds, this`balances
      ensures ok <==> ClaimRefund(old(Value()), owner, now, delay).Some?
      ensures Value() == if ok then ClaimRefund(old(Value()), owner, now, delay).value else old(Value())
    {
      hide Transfer;
      if owner !in refunds || refunds[owner].time + delay > now {
        return false;
      }
      ok := Pay(STAKE, owner, refunds[owner].net + refunds[owner].cpu);
      if ok {
        refunds := refunds - {owner};
      }
    }
  }

  lemma ChangeBwParts(s: State, source: Name, receiver: Name, net: int, cpu: int, transfer: bool, now: int, f: real)
    ensures var from := if transfer then receiver else source;
            var delegated := AddDelegation(s.delegated, from, receiver, net, cpu);
            var resources := AddResources(s.resources, receiver, net, cpu);
            var votes := Voting.ChangeStake(s.votes, from, net + cpu, f);
            var settled := if delegated.None? || resources.None? then None else
              MoveTokens(s.(delegated := delegated.value, resources := resources.value), source, from,
                         !transfer && from == receiver, net, cpu, now);
            ChangeBw(s, source, receiver, net, cpu, transfer, now, f) ==
              if !DeltasAreFormed(net, cpu) || settled.None? || votes.None? then None
              else Some(settled.value.(votes := votes.value))
  {
    hide AddDelegation, AddResources, ChangeRefund, Transfer, Voting.ChangeStake, DeltasAreFormed;
  }
}
