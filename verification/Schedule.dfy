/** Whose turn a slot is: every producer gets the same number of consecutive slots, in the order
    of the schedule, round after round. */
module Schedule {
  import opened Dpos

  function Round(n: nat): nat {
    n * REPETITIONS
  }

  /** The position in a schedule of `n` producers whose turn a slot is. */
  function Position(slot: nat, n: nat): (k: nat)
    requires n > 0
    ensures k < n
  {
    slot % Round(n) / REPETITIONS
  }

  lemma ScheduledIsAtPosition(producers: seq<Name>, slot: nat)
    requires producers != []
    ensures Scheduled(producers, slot) == producers[Position(slot, |producers|)]
  {
  }

  // ----- how often a position comes up -----

  /** How many of `len` slots from `slot` on are the turn of position `k`. */
  function Turns(slot: nat, len: nat, k: nat, n: nat): nat
    requires n > 0
  {
    if len == 0 then 0
    else Turns(slot, len - 1, k, n) + (if Position(slot + len - 1, n) == k then 1 else 0)
  }

  /** A quotient with a small remainder is the quotient. */
  lemma Quotient(x: nat, d: nat, q: nat, r: nat)
    requires r < d && x == Product(q, d) + r
    ensures x % d == r
  {
    hide Product;
    var q', r' := x / d, x % d;
    assert x == Product(q', d) + r' by {
      Divided(x, d);
    }
    if q' > q {
      Larger(q, q', d);
    } else if q' < q {
      Larger(q', q, d);
    }
  }

  function Product(q: nat, d: nat): nat {
    q * d
  }

  lemma Divided(x: nat, d: nat)
    requires d > 0
    ensures x == Product(x / d, d) + x % d
  {
  }

  lemma {:induction false} Larger(q: nat, q': nat, d: nat)
    requires q < q'
    ensures Product(q', d) >= Product(q, d) + d
  {
    hide Product;
    OneMore(q' - 1, d);
    if q + 1 < q' {
      Larger(q, q' - 1, d);
    }
  }

  lemma OneMore(q: nat, d: nat)
    ensures Product(q + 1, d) == Product(q, d) + d && Product(0, d) == 0
  {
  }

  /** The producers take turns of twelve slots, one after the other. */
  function Turn(producers: seq<Name>, slot: nat): Name
    requires producers != []
  {
    producers[slot / 12 % |producers|]
  }

  lemma TurnIsScheduled(producers: seq<Name>, slot: nat)
    requires producers != []
    ensures Scheduled(producers, slot) == Turn(producers, slot)
  {
    DozenInRound(slot, |producers|);
  }

  /** Cutting a slot down to a round first, or the number of its dozen. */
  lemma DozenInRound(slot: nat, n: nat)
    requires n > 0
    ensures slot % (n * 12) / 12 == slot / 12 % n
  {
    var dozen, rest := slot / 12, slot % 12;
    var q, r := dozen / n, dozen % n;
    RoundOf(q, n, r, rest);
    Quotient(slot, n * 12, q, r * 12 + rest);
  }

  lemma RoundOf(q: nat, n: nat, r: nat, rest: nat)
    requires r < n && rest < 12
    ensures (q * n + r) * 12 + rest == Product(q, n * 12) + (r * 12 + rest) && r * 12 + rest < n * 12
  {
  }

  lemma PositionRepeats(slot: nat, n: nat)
    requires n > 0
    ensures Position(slot + Round(n), n) == Position(slot, n)
  {
    hide Product, Round;
    var d := Round(n);
    RoundIsPositive(n);
    Divided(slot, d);
    OneMore(slot / d, d);
    Quotient(slot + d, d, slot / d + 1, slot % d);
  }

  lemma RoundIsPositive(n: nat)
    requires n > 0
    ensures Round(n) > 0
  {
  }

  lemma PositionInRound(slot: nat, n: nat)
    requires n > 0 && slot < Round(n)
    ensures Position(slot, n) == slot / REPETITIONS
  {
    hide Product, Round;
    OneMore(0, Round(n));
    Quotient(slot, Round(n), 0, slot);
  }

  lemma {:induction false} TurnsFromNext(slot: nat, len: nat, k: nat, n: nat)
    requires n > 0
    ensures Turns(slot, len + 1, k, n) == Turns(slot + 1, len, k, n) + (if Position(slot, n) == k then 1 else 0)
  {
    hide Position;
    if len > 0 {
      TurnsFromNext(slot, len - 1, k, n);
      assert slot + (len + 1) - 1 == slot + 1 + len - 1;
    }
  }

  /** In the first round the turns of position `k` are the slots from `12 k` to `12 k + 11`. */
  lemma {:induction false} TurnsInFirstRound(len: nat, k: nat, n: nat)
    requires n > 0 && len <= Round(n) && k < n
    ensures Turns(0, len, k, n) ==
              if len <= k * REPETITIONS then 0
              else if len >= (k + 1) * REPETITIONS then REPETITIONS
              else len - k * REPETITIONS
  {
    hide Position;
    if len > 0 {
      TurnsInFirstRound(len - 1, k, n);
      PositionInRound(len - 1, n);
    }
  }

  /** In any window as long as a round, every position comes up equally often. */
  lemma {:induction false} EveryWindowIsFair(slot: nat, k: nat, n: nat)
    requires n > 0 && k < n
    ensures Turns(slot, Round(n), k, n) == REPETITIONS
  {
    hide Position, Turns;
    if slot == 0 {
      TurnsInFirstRound(Round(n), k, n);
    } else {
      EveryWindowIsFair(slot - 1, k, n);
      TurnsFromNext(slot - 1, Round(n), k, n);
      TurnsFromNext(slot - 1, Round(n) - 1, k, n);
      PositionRepeats(slot - 1, n);
      LastTurn(slot, Round(n), k, n);
      LastTurn(slot - 1, Round(n), k, n);
    }
  }

  lemma LastTurn(slot: nat, len: nat, k: nat, n: nat)
    requires n > 0 && len > 0
    ensures Turns(slot, len, k, n) == Turns(slot, len - 1, k, n) + (if Position(slot + len - 1, n) == k then 1 else 0)
  {
  }

  // ----- the first block of the next round -----

  /** `calc_block_num_of_next_round_first_block`. */
  method NextRoundStart(head: nat, n: nat) returns (r: nat)
    requires n > 0
    ensures head < r <= head + Round(n) && r % Round(n) == 0
    ensures forall m :: head < m < r ==> m % Round(n) != 0
    ensures Position(r, n) == 0
  {
    r := head + 1;
    ghost var last := LastOfRound(head, n);
    while r % Round(n) != 0
      invariant head < r <= last
      invariant forall m :: head < m < r ==> m % Round(n) != 0
      decreases last - r
    {
      r := r + 1;
    }
  }

  lemma LastOfRound(head: nat, n: nat) returns (last: nat)
    requires n > 0
    ensures head < last <= head + Round(n) && last % Round(n) == 0
  {
    hide Product, Round;
    RoundIsPositive(n);
    last := head - head % Round(n) + Round(n);
    Divided(head, Round(n));
    OneMore(head / Round(n), Round(n));
    Quotient(last, Round(n), head / Round(n) + 1, 0);
  }

  /** Whether two schedules agree, position by position. */
  method SameSchedule(first: seq<Name>, second: seq<Name>) returns (same: bool)
    ensures same <==> first == second
  {
    same := |first| == |second|;
    for i := 0 to |first|
      invariant same <==> |first| == |second| && first[..i] == second[..i]
    {
      same := same && first[i] == second[i];
    }
  }

  // ----- two forks built by different producers -----

  /** How many of `len` slots after `slot` belong to the given producers. */
  function SlotsOf(schedule: seq<Name>, slot: nat, len: nat, who: set<Name>): nat
    requires schedule != []
  {
    if len == 0 then 0
    else SlotsOf(schedule, slot, len - 1, who) + (if Scheduled(schedule, slot + len) in who then 1 else 0)
  }

  /** Two chains that branch off at one slot and are continued by different producers. Each turn
      looks at the slot `skip` after the head of a chain and either produces a block there or
      skips it; so every slot is looked at once. */
  method BuildForks(schedule: seq<Name>, fork: nat, who1: set<Name>, who2: set<Name>, turns: nat)
    returns (blocks1: nat, blocks2: nat)
    requires schedule != []
    ensures blocks1 == SlotsOf(schedule, fork, turns, who1)
    ensures blocks2 == SlotsOf(schedule, fork, turns, who2)
  {
    var head1, head2 := fork, fork;
    var skip1, skip2 := 1, 1;
    blocks1, blocks2 := 0, 0;
    for i := 0 to turns
      invariant head1 + skip1 == fork + i + 1 == head2 + skip2 && skip1 >= 1 && skip2 >= 1
      invariant blocks1 == SlotsOf(schedule, fork, i, who1) && blocks2 == SlotsOf(schedule, fork, i, who2)
    {
      if Scheduled(schedule, head1 + skip1) in who1 {
        head1, skip1, blocks1 := head1 + skip1, 1, blocks1 + 1;
      } else {
        skip1 := skip1 + 1;
      }
      if Scheduled(schedule, head2 + skip2) in who2 {
        head2, skip2, blocks2 := head2 + skip2, 1, blocks2 + 1;
      } else {
        skip2 := skip2 + 1;
      }
    }
  }

  /** A single producer that is scheduled once produces twelve blocks in every round. */
  lemma {:induction false} OneProducerTurns(schedule: seq<Name>, slot: nat, len: nat, k: nat)
    requires k < |schedule| && forall i :: 0 <= i < |schedule| && i != k ==> schedule[i] != schedule[k]
    ensures SlotsOf(schedule, slot, len, {schedule[k]}) == Turns(slot + 1, len, k, |schedule|)
  {
    hide Position, Scheduled;
    if len > 0 {
      OneProducerTurns(schedule, slot, len - 1, k);
      ScheduledIsAtPosition(schedule, slot + len);
      assert slot + 1 + len - 1 == slot + len;
    }
  }

  lemma OneProducerPerRound(schedule: seq<Name>, slot: nat, k: nat)
    requires k < |schedule| && forall i :: 0 <= i < |schedule| && i != k ==> schedule[i] != schedule[k]
    ensures SlotsOf(schedule, slot, Round(|schedule|), {schedule[k]}) == REPETITIONS
  {
    OneProducerTurns(schedule, slot, Round(|schedule|), k);
    EveryWindowIsFair(slot + 1, k, |schedule|);
  }

  lemma {:induction false} SlotsOfRest(schedule: seq<Name>, slot: nat, len: nat, p: Name, who: set<Name>)
    requires schedule != [] && p !in who
    ensures SlotsOf(schedule, slot, len, who + {p}) == SlotsOf(schedule, slot, len, who) + SlotsOf(schedule, slot, len, {p})
  {
    hide Scheduled;
    if len > 0 {
      SlotsOfRest(schedule, slot, len - 1, p, who);
    }
  }

  /** In every round a set of scheduled producers adds twelve blocks for each of them. */
  lemma {:induction false} ProducersPerRound(schedule: seq<Name>, slot: nat, who: set<Name>)
    requires forall i, j :: 0 <= i < j < |schedule| ==> schedule[i] != schedule[j]
    requires forall p :: p in who ==> p in schedule
    requires schedule != []
    ensures SlotsOf(schedule, slot, Round(|schedule|), who) == |who| * REPETITIONS
  {
    hide SlotsOf, Scheduled;
    if who == {} {
      NoProducers(schedule, slot, Round(|schedule|));
    } else {
      var p :| p in who;
      var k :| 0 <= k < |schedule| && schedule[k] == p;
      ProducersPerRound(schedule, slot, who - {p});
      OneProducerPerRound(schedule, slot, k);
      SlotsOfRest(schedule, slot, Round(|schedule|), p, who - {p});
      assert who - {p} + {p} == who;
    }
  }

  lemma {:induction false} NoProducers(schedule: seq<Name>, slot: nat, len: nat)
    requires schedule != []
    ensures SlotsOf(schedule, slot, len, {}) == 0
  {
    hide Scheduled;
    if len > 0 {
      NoProducers(schedule, slot, len - 1);
    }
  }
}
