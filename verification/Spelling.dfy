/** Names as numbers: twelve digits to the base 32 and a last one to the base 16, the first
    character highest. The names the system contracts know by number are spelled out, and the names
    reserved for the system are told by their spelling. */
module Spelling {
  import opened Permissions
  import Staking

  function Digit(c: char): nat {
    if 'a' <= c <= 'z' then c as int - 'a' as int + 6
    else if '1' <= c <= '5' then c as int - '1' as int + 1
    else 0
  }

  function DigitAt(s: string, i: nat): nat {
    if i < |s| then Digit(s[i]) else 0
  }

  /** The number of the first `k` characters. */
  function Front(s: string, k: nat): nat {
    if k == 0 then 0 else 32 * Front(s, k - 1) + DigitAt(s, k - 1)
  }

  function Number(s: string): nat {
    16 * Front(s, 12) + DigitAt(s, 12) % 16
  }

  /** The names the contracts know by number. */
  lemma KnownNames()
    ensures Number("owner") == OWNER && Number("active") == ACTIVE && Number("eosio.any") == ANY && Number("eosio.stake") == Staking.STAKE
  {
    hide Number;
    OwnerIs();
    ActiveIs();
    AnyIs();
    StakeIs();
  }

  lemma OwnerIs()
    ensures Number("owner") == OWNER
  {
    hide Front;
    var s := "owner";
    FrontIs(s);
    assert DigitAt(s, 0) == 20 && DigitAt(s, 1) == 28 && DigitAt(s, 2) == 19 && DigitAt(s, 3) == 10 && DigitAt(s, 4) == 23 && DigitAt(s, 5) == 0;
    assert DigitAt(s, 6) == 0 && DigitAt(s, 7) == 0 && DigitAt(s, 8) == 0 && DigitAt(s, 9) == 0 && DigitAt(s, 10) == 0 && DigitAt(s, 11) == 0 && DigitAt(s, 12) == 0;
    assert Front(s, 6) == 701082336 && Front(s, 12) == 752781426230820864;
  }

  lemma ActiveIs()
    ensures Number("active") == ACTIVE
  {
    hide Front;
    var s := "active";
    FrontIs(s);
    assert DigitAt(s, 0) == 6 && DigitAt(s, 1) == 8 && DigitAt(s, 2) == 25 && DigitAt(s, 3) == 14 && DigitAt(s, 4) == 27 && DigitAt(s, 5) == 10;
    assert DigitAt(s, 6) == 0 && DigitAt(s, 7) == 0 && DigitAt(s, 8) == 0 && DigitAt(s, 9) == 0 && DigitAt(s, 10) == 0 && DigitAt(s, 11) == 0 && DigitAt(s, 12) == 0;
    assert Front(s, 6) == 210549610 && Front(s, 12) == 226075922283888640;
  }

  lemma AnyIs()
    ensures Number("eosio.any") == ANY
  {
    hide Front;
    var s := "eosio.any";
    FrontIs(s);
    assert DigitAt(s, 0) == 10 && DigitAt(s, 1) == 20 && DigitAt(s, 2) == 24 && DigitAt(s, 3) == 14 && DigitAt(s, 4) == 20 && DigitAt(s, 5) == 0;
    assert DigitAt(s, 6) == 6 && DigitAt(s, 7) == 19 && DigitAt(s, 8) == 30 && DigitAt(s, 9) == 0 && DigitAt(s, 10) == 0 && DigitAt(s, 11) == 0 && DigitAt(s, 12) == 0;
    assert Front(s, 6) == 357317248 && Front(s, 12) == 383666473836412928;
  }

  lemma StakeIs()
    ensures Number("eosio.stake") == Staking.STAKE
  {
    hide Front;
    var s := "eosio.stake";
    FrontIs(s);
    assert DigitAt(s, 0) == 10 && DigitAt(s, 1) == 20 && DigitAt(s, 2) == 24 && DigitAt(s, 3) == 14 && DigitAt(s, 4) == 20 && DigitAt(s, 5) == 0;
    assert DigitAt(s, 6) == 24 && DigitAt(s, 7) == 25 && DigitAt(s, 8) == 6 && DigitAt(s, 9) == 16 && DigitAt(s, 10) == 10 && DigitAt(s, 11) == 0 && DigitAt(s, 12) == 0;
    assert Front(s, 6) == 357317248 && Front(s, 12) == 383666474445914432;
  }

  /** The first twelve digits written out. */
  lemma FrontIs(s: string)
    ensures Front(s, 6) == 0x2000000 * DigitAt(s, 0) + 0x100000 * DigitAt(s, 1) + 0x8000 * DigitAt(s, 2) + 0x400 * DigitAt(s, 3)
                           + 0x20 * DigitAt(s, 4) + DigitAt(s, 5)
    ensures Front(s, 12) == 0x40000000 * Front(s, 6) + 0x2000000 * DigitAt(s, 6) + 0x100000 * DigitAt(s, 7) + 0x8000 * DigitAt(s, 8)
                            + 0x400 * DigitAt(s, 9) + 0x20 * DigitAt(s, 10) + DigitAt(s, 11)
  {
    hide DigitAt;
    assert Front(s, 1) == DigitAt(s, 0) && Front(s, 2) == 0x20 * DigitAt(s, 0) + DigitAt(s, 1);
    assert Front(s, 3) == 32 * Front(s, 2) + DigitAt(s, 2) && Front(s, 4) == 32 * Front(s, 3) + DigitAt(s, 3);
    assert Front(s, 5) == 32 * Front(s, 4) + DigitAt(s, 4) && Front(s, 6) == 32 * Front(s, 5) + DigitAt(s, 5);
    assert Front(s, 7) == 32 * Front(s, 6) + DigitAt(s, 6) && Front(s, 8) == 32 * Front(s, 7) + DigitAt(s, 7);
    assert Front(s, 9) == 32 * Front(s, 8) + DigitAt(s, 8) && Front(s, 10) == 32 * Front(s, 9) + DigitAt(s, 9);
    assert Front(s, 11) == 32 * Front(s, 10) + DigitAt(s, 10) && Front(s, 12) == 32 * Front(s, 11) + DigitAt(s, 11);
  }

  ghost predicate IsName(s: string) {
    && |s| <= 13
    && (forall i :: 0 <= i < |s| ==> s[i] == '.' || '1' <= s[i] <= '5' || 'a' <= s[i] <= 'z')
    && (|s| == 13 ==> Digit(s[12]) < 16)
    && (s != "" ==> s[|s| - 1] != '.')
  }

  lemma DigitIsSmall(s: string, i: nat)
    ensures DigitAt(s, i) < 32
  {
  }

  lemma {:induction false} SameFrontIff(s: string, t: string, k: nat)
    ensures Front(s, k) == Front(t, k) <==> forall i :: 0 <= i < k ==> DigitAt(s, i) == DigitAt(t, i)
  {
    hide DigitAt;
    if k > 0 {
      DigitIsSmall(s, k - 1);
      DigitIsSmall(t, k - 1);
      SameFrontIff(s, t, k - 1);
      SameLastDigit(Front(s, k - 1), DigitAt(s, k - 1), Front(t, k - 1), DigitAt(t, k - 1));
    }
  }

  lemma SameLastDigit(a: nat, d: nat, b: nat, e: nat)
    requires d < 32 && e < 32
    ensures 32 * a + d == 32 * b + e <==> a == b && d == e
  {
  }

  lemma SystemFront()
    ensures Front("eosio.", 6) == 357317248
  {
    hide Front;
    var s := "eosio.";
    FrontIs(s);
    assert DigitAt(s, 0) == 10 && DigitAt(s, 1) == 20 && DigitAt(s, 2) == 24;
    assert DigitAt(s, 3) == 14 && DigitAt(s, 4) == 20 && DigitAt(s, 5) == 0;
  }

  lemma SameCharIff(s: string, t: string, i: nat)
    requires IsName(s) && i < |s| && i < |t| && (t[i] == '.' || '1' <= t[i] <= '5' || 'a' <= t[i] <= 'z')
    ensures DigitAt(s, i) == DigitAt(t, i) <==> s[i] == t[i]
  {
  }

  lemma FrontOfSystem(s: string)
    requires IsName(s) && |s| >= 6
    ensures Front(s, 6) == 357317248 <==> s[..6] == "eosio."
  {
    hide IsName, Front, DigitAt;
    var t := "eosio.";
    SystemFront();
    SameFrontIff(s, t, 6);
    forall i | 0 <= i < 6 ensures DigitAt(s, i) == DigitAt(t, i) <==> s[i] == t[i] {
      SameCharIff(s, t, i);
    }
    if s[..6] == t {
      assert forall i :: 0 <= i < 6 ==> s[i] == s[..6][i];
    }
  }

  /** The digits after the first six. */
  ghost function Back(s: string): int {
    16 * (Front(s, 12) - 0x40000000 * Front(s, 6)) + DigitAt(s, 12) % 16
  }

  lemma NumberSplits(s: string)
    ensures Number(s) == 0x4_0000_0000 * Front(s, 6) + Back(s) && 0 <= Back(s) < 0x4_0000_0000
  {
    hide DigitAt;
    FrontIs(s);
    DigitIsSmall(s, 6);
    DigitIsSmall(s, 7);
    DigitIsSmall(s, 8);
    DigitIsSmall(s, 9);
    DigitIsSmall(s, 10);
    DigitIsSmall(s, 11);
  }

  lemma BackIsEmpty(s: string)
    requires IsName(s)
    ensures Back(s) == 0 <==> |s| <= 6
  {
    FrontIs(s);
    if |s| > 6 {
      LastDigit(s);
    }
  }

  lemma LastDigit(s: string)
    requires IsName(s) && s != ""
    ensures DigitAt(s, |s| - 1) > 0 && (|s| == 13 ==> DigitAt(s, 12) % 16 > 0)
  {
  }

  /** The names that begin with `eosio.` are those reserved for the system. */
  lemma ReservedIff(s: string)
    requires IsName(s)
    ensures Reserved(Number(s)) <==> "eosio." <= s
  {
    hide IsName, Front, DigitAt, Number, Back;
    NumberSplits(s);
    BackIsEmpty(s);
    if |s| > 6 {
      var t := "eosio.";
      FrontOfSystem(s);
      assert t <= s <==> s[..6] == t;
    } else {
      ShortIsFree(s);
    }
  }

  lemma ShortIsFree(s: string)
    requires IsName(s) && |s| <= 6
    ensures !("eosio." <= s)
  {
  }
}
