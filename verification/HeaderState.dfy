/** The header state as an object: the steps of `next` change a fresh copy in place, and together
    they have exactly the effect of `Dpos.Next`. */
module HeaderState {
  import opened Dpos
  import Turns = Schedule

  class BlockHeaderState {
    var blockNum: nat
    var slot: nat
    var producer: Name
    var proposed: nat
    var irreversible: nat
    var pendingLib: nat
    var pending: Schedule
    var active: Schedule
    var lastProduced: map<Name, nat>
    var implied: map<Name, nat>
    var counts: seq<Byte>

    function Value(): State
      reads this
    {
      State(blockNum, slot, producer, proposed, irreversible, pendingLib, pending, active, lastProduced, implied, counts)
    }

    constructor (s: State)
      ensures Value() == s
    {
      blockNum, slot, producer := s.blockNum, s.slot, s.producer;
      proposed, irreversible, pendingLib := s.proposed, s.irreversible, s.pendingLib;
      pending, active := s.pending, s.active;
      lastProduced, implied, counts := s.lastProduced, s.implied, s.counts;
    }

    /** `set_confirmed`: counts down from the newest block and stops at the first count that
        reaches zero. */
    method SetConfirmed(prev: UInt16)
      requires |counts| <= blockNum
      modifies this`counts, this`proposed
      ensures Value() == Confirm(old(Value()), prev)
    {
      hide Lowered, LastOne, Confirm, OneLess, CountedDown;
      ghost var was, n := counts, prev + 1;
      ConfirmParts(Value(), prev);
      StartsCounting(was, n);
      var i := |counts| - 1;
      var blocksToConfirm := prev + 1;
      while i >= 0 && blocksToConfirm > 0
        invariant -1 <= i < |was| && blocksToConfirm == n - (|was| - 1 - i) >= 0
        invariant CountedDown(was, counts, i, n) && proposed == old(proposed)
        decreases i
      {
        CountsOne(was, counts, i, n);
        counts := counts[i := OneLess(counts[i])];
        if counts[i] == 0 {
          proposed := blockNum - (|counts| - 1 - i);
          counts := counts[i + 1..];
          return;
        }
        i := i - 1;
        blocksToConfirm := blocksToConfirm - 1;
      }
      CountedAll(was, counts, i, n);
    }

    /** The entries of `m` for the given producers. */
    static method Carry(m: map<Name, nat>, producers: seq<Name>, default: nat) returns (r: map<Name, nat>)
      ensures r == Carried(m, producers, default)
    {
      r := map[];
      for i := 0 to |producers|
        invariant r == Carried(m, producers[..i], default)
      {
        assert producers[..i + 1] == producers[..i] + [producers[i]];
        r := r[producers[i] := if producers[i] in m then m[producers[i]] else default];
      }
      assert producers[..|producers|] == producers;
    }

    /** `maybe_promote_pending`. */
    method MaybePromotePending() returns (promoted: bool)
      modifies this`active, this`pending, this`lastProduced, this`implied
      ensures promoted <==> MayPromote(old(Value()))
      ensures Value() == if promoted then Promoted(old(Value())) else old(Value())
    {
      hide Carried;
      promoted := pending.producers != [] && irreversible >= pendingLib;
      if promoted {
        active, pending := pending, pending.(producers := []);
        var produced := Carry(lastProduced, active.producers, irreversible);
        implied := Carry(implied, active.producers, irreversible);
        lastProduced := produced[producer := blockNum];
      }
    }

    /** `set_new_producers`. */
    method SetNewProducers(next: Schedule) returns (ok: bool)
      modifies this`pending, this`pendingLib
      ensures ok <==> MayPropose(old(Value()), next)
      ensures ok ==> Value() == Proposing(old(Value()), next)
      ensures !ok ==> Value() == old(Value())
    {
      ok := next.version == active.version + 1 && pending.producers == [];
      if ok {
        pending, pendingLib := next, blockNum;
      }
    }

    /** `generate_next` for a given later slot. */
    method GenerateNext(when: nat) returns (r: BlockHeaderState)
      requires active.producers != []
      ensures fresh(r) && r.Value() == Generated(Value(), when)
    {
      hide LastIrreversible, Grown, Scheduled;
      var p := Scheduled(active.producers, when);
      var implied' := implied[p := proposed];
      var irreversible' := CalcLastIrreversible(implied');
      r := new BlockHeaderState(
        Value().(blockNum := blockNum + 1, slot := when, producer := p, lastProduced := lastProduced[p := blockNum + 1],
                 implied := implied', irreversible := irreversible',
                 counts := Grown(counts, Required(|active.producers|))));
    }

    /** `next`: the state of the following block, or null if its header is refused. */
    method Apply(h: Header) returns (r: BlockHeaderState?)
      requires Formed(Value())
      ensures r == null <==> Next(Value(), h).None?
      ensures r != null ==> fresh(r) && r.Value() == Next(Value(), h).value
      ensures r != null ==>
                && h.slot > slot && h.version == active.version && h.producer == active.producers[h.slot / 12 % |active.producers|]
                && r.blockNum == blockNum + 1 && r.slot == h.slot && r.producer == h.producer
    {
      hide LastIrreversible, Grown, Scheduled, Confirm, Promoted, Proposing, MayPromote, MayPropose;
      if h.slot <= slot {
        return null;
      }
      Turns.TurnIsScheduled(active.producers, h.slot);
      var next := GenerateNext(h.slot);
      if next.producer != h.producer || active.version != h.version {
        return null;
      }
      if h.producer in lastProduced && !(lastProduced[h.producer] < UInt32(next.blockNum - h.confirmed)) {
        return null;
      }
      next.SetConfirmed(h.confirmed);
      var promoted := next.MaybePromotePending();
      if h.newProducers.Some? {
        if promoted {
          return null;
        }
        var ok := next.SetNewProducers(h.newProducers.value);
        if !ok {
          return null;
        }
      }
      r := next;
    }
  }

  /** The counts above `i` were lowered, and none of them was one. */
  ghost predicate CountedDown(was: seq<Byte>, counts: seq<Byte>, i: int, n: nat) {
    -1 <= i < |was| && counts == Lowered(was, |was| - 1 - i) && LastOne(was, n) <= i
  }

  lemma StartsCounting(was: seq<Byte>, n: nat)
    ensures CountedDown(was, was, |was| - 1, n)
  {
  }

  lemma CountsOne(was: seq<Byte>, counts: seq<Byte>, i: nat, n: nat)
    requires CountedDown(was, counts, i, n) && |was| - n <= i
    ensures i < |counts| == |was|
    ensures var c := counts[i := OneLess(counts[i])];
            if c[i] == 0 then LastOne(was, n) == i && c[i + 1..] == Lowered(was, n)[i + 1..]
            else CountedDown(was, c, i - 1, n)
  {
    var c := counts[i := OneLess(counts[i])];
    assert c == Lowered(was, |was| - i);
  }

  lemma CountedAll(was: seq<Byte>, counts: seq<Byte>, i: int, n: nat)
    requires CountedDown(was, counts, i, n) && (i < 0 || n == |was| - 1 - i) && n >= |was| - 1 - i
    ensures LastOne(was, n) == -1 && counts == Lowered(was, n)[0..]
  {
    assert counts == Lowered(was, n);
  }
}
