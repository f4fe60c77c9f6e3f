/** Account names packed into 64 bits: twelve 5-bit characters from the top down and a
    thirteenth of 4 bits. Models the packing of a string, the unpacking to a string with its
    trailing dots removed, the check that a string is in normal form, and the bit-twiddling
    computation of the part of a name after its last dot. */
module Names {
  import opened Options

  const CHARMAP: string := ".12345abcdefghijklmnopqrstuvwxyz"

  function SymbolToChar(c: bv5): char {
    CHARMAP[c as int]
  }

  function CharToSymbol(c: char): bv5 {
    if 'a' <= c <= 'z' then (c as int - 'a' as int + 6) as bv5
    else if '1' <= c <= '5' then (c as int - '1' as int + 1) as bv5
    else 0
  }

  lemma SymbolRoundTrip(c: bv5)
    ensures CharToSymbol(SymbolToChar(c)) == c
    ensures SymbolToChar(c) == '.' <==> c == 0
  {
    assert ((c as int) as bv5) == c;
  }

  lemma CharRoundTrip(c: char)
    requires c in CHARMAP
    ensures SymbolToChar(CharToSymbol(c)) == c
  {
    hide CharToSymbol, SymbolToChar, CHARMAP;
    assert |CHARMAP| == 32 by {
      CharmapSize();
    }
    var k :| 0 <= k < |CHARMAP| && CHARMAP[k] == c;
    var x := k as bv5;
    CharAt(k, x);
    SymbolRoundTrip(x);
  }

  lemma CharmapSize()
    ensures |CHARMAP| == 32
  {
  }

  lemma CharAt(k: nat, x: bv5)
    requires k < 32 && x == k as bv5
    ensures k < |CHARMAP| && SymbolToChar(x) == CHARMAP[k]
  {
    IndexRoundTrip(k);
  }

  lemma IndexRoundTrip(k: nat)
    requires k < 32
    ensures (k as bv5) as int == k
  {
  }

  lemma SymbolToCharIsMapped(c: bv5)
    ensures SymbolToChar(c) in CHARMAP
    ensures c < 16 ==> SymbolToChar(c) in CHARMAP[..16]
  {
    if c < 16 {
      LowSymbol(c);
      assert CHARMAP[..16][c as int] == SymbolToChar(c);
    }
  }

  lemma LowSymbol(c: bv5)
    requires c < 16
    ensures c as int < 16
  {
    assert ((c as int) as bv5) == c;
    if c as int >= 16 {
      HighSymbol(c as int);
    }
  }

  lemma HighSymbol(k: int)
    requires 16 <= k < 32
    ensures k as bv5 >= 16
  {
  }

  // ----- the characters of a packed name -----

  /** The `i`-th character of a packed name, counted from the left. */
  function Symbol(n: bv64, i: bv64): bv5
    requires i < 13
  {
    if i == 12 then (n & 0xF) as bv5 else ((n >> (59 - 5 * i)) & 0x1F) as bv5
  }

  /** A small index as a machine word. */
  function Pos(i: nat): (p: bv64)
    requires i <= 13
    ensures p <= 13
    ensures i < 13 ==> p < 13
    ensures i < 12 ==> p < 12
  {
    if i == 0 then 0 else if i == 1 then 1 else if i == 2 then 2 else if i == 3 then 3
    else if i == 4 then 4 else if i == 5 then 5 else if i == 6 then 6 else if i == 7 then 7
    else if i == 8 then 8 else if i == 9 then 9 else if i == 10 then 10 else if i == 11 then 11
    else if i == 12 then 12 else 13
  }

  lemma PosIsInjective(i: nat, j: nat)
    requires i <= 13 && j <= 13 && Pos(i) == Pos(j)
    ensures i == j
  {
  }

  lemma PosOfNext(i: nat)
    requires i < 13
    ensures Pos(i + 1) == Pos(i) + 1
  {
  }

  lemma {:induction false} PosAdds(i: nat, j: nat)
    requires i + j <= 13
    ensures Pos(i + j) == Pos(i) + Pos(j)
  {
    hide Pos;
    if j == 0 {
      PosOfZero();
    } else {
      PosAdds(i, j - 1);
      PosOfNext(i + (j - 1));
      PosOfNext(j - 1);
    }
  }

  lemma PosOfZero()
    ensures Pos(0) == 0 && Pos(1) == 1 && Pos(12) == 12
  {
  }

  /** All thirteen characters, before trimming. */
  function Chars(n: bv64): (cs: string)
    ensures |cs| == 13
    ensures forall i :: 0 <= i < 13 ==> cs[i] == SymbolToChar(Symbol(n, Pos(i)))
  {
    seq(13, i requires 0 <= i < 13 => SymbolToChar(Symbol(n, Pos(i))))
  }

  function TrimRight(s: string): (t: string)
    ensures t <= s
    ensures t != [] ==> t[|t| - 1] != '.'
  {
    if s != [] && s[|s| - 1] == '.' then TrimRight(s[..|s| - 1]) else s
  }

  function ToText(n: bv64): string {
    TrimRight(Chars(n))
  }

  /** `name::operator string`: reads the characters from the right, then trims. */
  method ToString(n: bv64) returns (text: string)
    ensures text == ToText(n)
  {
    hide Symbol, Pos, Unread, SymbolToChar, CHARMAP;
    var str := seq(13, _ => '.');
    var tmp := n;
    NothingRead(n);
    for i := 0 to 13
      invariant |str| == 13 && tmp == Unread(n, i)
      invariant forall j :: 13 - i <= j < 13 ==> str[j] == Chars(n)[j]
    {
      LowestUnread(n, i);
      str := str[12 - i := SymbolToChar(if i == 0 then (tmp & 0x0F) as bv5 else (tmp & 0x1F) as bv5)];
      tmp := if i == 0 then tmp >> 4 else tmp >> 5;
    }
    assert str == Chars(n);
    text := TrimRight(str);
  }

  /** What is left of a name after its last `i` characters were shifted out. */
  ghost function Unread(n: bv64, i: nat): bv64
    requires i <= 13
  {
    if i == 0 then n else ShiftedOut(n, Pos(i))
  }

  ghost function ShiftedOut(n: bv64, k: bv64): bv64
    requires 1 <= k <= 13
  {
    n >> (5 * k - 1)
  }

  lemma NothingRead(n: bv64)
    ensures Unread(n, 0) == n
  {
  }

  lemma ShiftedOutOnce(n: bv64)
    ensures ShiftedOut(n, 1) == n >> 4
  {
  }

  lemma ShiftedOutNext(n: bv64, k: bv64)
    requires 1 <= k < 13
    ensures ShiftedOut(n, k + 1) == ShiftedOut(n, k) >> 5
  {
  }

  lemma LowestShifted(n: bv64, k: bv64)
    requires 1 <= k < 13
    ensures Symbol(n, 12 - k) == (ShiftedOut(n, k) & 0x1F) as bv5
  {
  }

  lemma LowestUnread(n: bv64, i: nat)
    requires i < 13
    ensures Symbol(n, Pos(12 - i)) == (if i == 0 then (n & 0x0F) as bv5 else (Unread(n, i) & 0x1F) as bv5)
    ensures Unread(n, i + 1) == (if i == 0 then n >> 4 else Unread(n, i) >> 5)
  {
    hide Pos, ShiftedOut;
    PosOfZero();
    if i == 0 {
      ShiftedOutOnce(n);
    } else {
      PosOfNext(i);
      PosAdds(i, 12 - i);
      PosIsPositive(i);
      ShiftedOutNext(n, Pos(i));
      LowestShifted(n, Pos(i));
      assert 12 - Pos(i) == Pos(12 - i);
    }
  }

  lemma PosIsPositive(i: nat)
    requires 0 < i < 13
    ensures 1 <= Pos(i) < 13
  {
  }

  lemma TrimOfDots(s: string, dots: string)
    requires forall i :: 0 <= i < |dots| ==> dots[i] == '.'
    ensures TrimRight(s + dots) == TrimRight(s)
  {
    if dots == [] {
      assert s + dots == s;
    } else {
      assert (s + dots)[..|s + dots| - 1] == s + dots[..|dots| - 1];
      TrimOfDots(s, dots[..|dots| - 1]);
    }
  }

  lemma TrimLeavesDots(s: string)
    ensures forall i :: |TrimRight(s)| <= i < |s| ==> s[i] == '.'
  {
  }

  // ----- packing -----

  /** A character code moved to the position of the `i`-th of the twelve leading characters. */
  function Place(c: bv5, i: bv64): bv64
    requires i < 12
  {
    ((c as bv64) & 0x1F) << (64 - 5 * (i + 1))
  }

  /** The packed form of the first `count` of the twelve leading characters. */
  function PackLeading(s: string, count: nat): bv64
    requires count <= 12 && count <= |s|
  {
    if count == 0 then 0
    else PackLeading(s, count - 1) | Place(CharToSymbol(s[count - 1]), Pos(count - 1))
  }

  function Pack(s: string): bv64 {
    if |s| < 12 then PackLeading(s, |s|)
    else PackLeading(s, 12) | ((if |s| > 12 then CharToSymbol(s[12]) as bv64 else 0) & 0x0F)
  }

  /** `string_to_name`. Characters after the thirteenth are ignored. */
  method StringToName(s: string) returns (name: bv64)
    ensures name == Pack(s)
  {
    hide Place, Pos, CharToSymbol;
    name := 0;
    var i := 0;
    while i < |s| && i < 12
      invariant 0 <= i <= |s| && i <= 12
      invariant name == PackLeading(s, i)
    {
      name := name | Place(CharToSymbol(s[i]), Pos(i));
      i := i + 1;
    }
    if i == 12 {
      name := name | ((if |s| > 12 then CharToSymbol(s[12]) as bv64 else 0) & 0x0F);
    }
  }

  lemma PlacedSymbol(n: bv64, c: bv5, i: bv64)
    requires i < 12 && Symbol(n, i) == 0
    ensures Symbol(n | Place(c, i), i) == c
  {
  }

  lemma OtherSymbols(n: bv64, c: bv5, i: bv64, j: bv64)
    requires i < 12 && j < 13 && i != j
    ensures Symbol(n | Place(c, i), j) == Symbol(n, j)
  {
  }

  lemma PlaceSetsOneSymbol(n: bv64, c: bv5, i: bv64, j: bv64)
    requires i < 12 && j < 13 && Symbol(n, i) == 0
    ensures Symbol(n | Place(c, i), j) == if j == i then c else Symbol(n, j)
  {
    hide Symbol, Place;
    if i == j {
      PlacedSymbol(n, c, i);
    } else {
      OtherSymbols(n, c, i, j);
    }
  }

  lemma LastSymbolIsSet(n: bv64, c: bv64, j: bv64)
    requires j < 13 && Symbol(n, 12) == 0
    ensures Symbol(n | (c & 0x0F), j) == if j == 12 then ((c & 0x0F) as bv5) else Symbol(n, j)
  {
  }

  lemma {:induction false} PackedLeadingSymbols(s: string, count: nat, j: nat)
    requires count <= 12 && count <= |s| && j < 13
    ensures Symbol(PackLeading(s, count), Pos(j)) == if j < count then CharToSymbol(s[j]) else 0
  {
    hide Symbol, Place, Pos, CharToSymbol;
    if count == 0 {
      EmptyNameHasNoSymbols(Pos(j));
    } else {
      PackedLeadingSymbols(s, count - 1, j);
      PackedLeadingSymbols(s, count - 1, count - 1);
      PlaceSetsOneSymbol(PackLeading(s, count - 1), CharToSymbol(s[count - 1]), Pos(count - 1), Pos(j));
      if j != count - 1 && Pos(j) == Pos(count - 1) {
        PosIsInjective(j, count - 1);
      }
    }
  }

  lemma EmptyNameHasNoSymbols(j: bv64)
    requires j < 13
    ensures Symbol(0, j) == 0
  {
  }

  /** The characters of a packed string are the characters packed, the thirteenth cut to 4 bits. */
  lemma PackedSymbols(s: string, j: nat)
    requires j < 13
    ensures Symbol(Pack(s), Pos(j)) ==
            if j >= |s| then 0 else if j < 12 then CharToSymbol(s[j]) else CharToSymbol(s[12]) & 0x0F
  {
    if |s| < 12 {
      PackedLeadingSymbols(s, |s|, j);
    } else {
      PackedLeadingSymbols(s, 12, j);
      PackedLeadingSymbols(s, 12, 12);
      var c: bv64 := if |s| > 12 then CharToSymbol(s[12]) as bv64 else 0;
      LastSymbolIsSet(PackLeading(s, 12), c, Pos(j));
    }
  }

  lemma SymbolsDetermineName(m: bv64, n: bv64)
    requires forall j :: 0 <= j < 13 ==> Symbol(m, Pos(j)) == Symbol(n, Pos(j))
    ensures m == n
  {
    hide Symbol, Pos;
    SameName(m, n);
  }

  lemma SameName(m: bv64, n: bv64)
    requires Symbol(m, Pos(0)) == Symbol(n, Pos(0)) && Symbol(m, Pos(1)) == Symbol(n, Pos(1)) && Symbol(m, Pos(2)) == Symbol(n, Pos(2))
    requires Symbol(m, Pos(3)) == Symbol(n, Pos(3)) && Symbol(m, Pos(4)) == Symbol(n, Pos(4)) && Symbol(m, Pos(5)) == Symbol(n, Pos(5))
    requires Symbol(m, Pos(6)) == Symbol(n, Pos(6)) && Symbol(m, Pos(7)) == Symbol(n, Pos(7)) && Symbol(m, Pos(8)) == Symbol(n, Pos(8))
    requires Symbol(m, Pos(9)) == Symbol(n, Pos(9)) && Symbol(m, Pos(10)) == Symbol(n, Pos(10))
    requires Symbol(m, Pos(11)) == Symbol(n, Pos(11)) && Symbol(m, Pos(12)) == Symbol(n, Pos(12))
    ensures m == n
  {
  }

  // ----- normal form -----

  /** The strings `name::set` accepts: at most thirteen mapped characters, the thirteenth from
      the lower half of the map, no trailing dot. */
  predicate Normal(s: string) {
    && |s| <= 13
    && (forall i :: 0 <= i < |s| ==> s[i] in CHARMAP)
    && (|s| == 13 ==> s[12] in CHARMAP[..16])
    && (s != [] ==> s[|s| - 1] != '.')
  }

  /** `name::set`. */
  function Set(s: string): Option<bv64> {
    if |s| > 13 then None
    else if ToText(Pack(s)) != s then None
    else Some(Pack(s))
  }

  lemma TextCharacter(n: bv64, j: nat)
    requires j < 13
    ensures CharToSymbol(if j < |ToText(n)| then ToText(n)[j] else '.') == Symbol(n, Pos(j))
    ensures |ToText(n)| <= 13
  {
    hide Symbol, Pos, SymbolToChar, CHARMAP;
    var cs := Chars(n);
    TrimLeavesDots(cs);
    SymbolRoundTrip(Symbol(n, Pos(j)));
  }

  lemma LastSymbolIsLow(n: bv64)
    ensures Symbol(n, Pos(12)) & 0x0F == Symbol(n, Pos(12)) && Symbol(n, Pos(12)) < 16
  {
  }

  /** Unpacking and packing again gives back every one of the 2^64 names. */
  lemma PackOfText(n: bv64)
    ensures Pack(ToText(n)) == n
  {
    hide Symbol, Pos, Pack, ToText, CharToSymbol;
    forall j | 0 <= j < 13
      ensures Symbol(Pack(ToText(n)), Pos(j)) == Symbol(n, Pos(j))
    {
      TextCharacter(n, j);
      PackedSymbols(ToText(n), j);
      LastSymbolIsLow(n);
      DotIsZero();
    }
    SymbolsDetermineName(Pack(ToText(n)), n);
  }

  lemma DotIsZero()
    ensures CharToSymbol('.') == 0
  {
  }

  lemma TextIsNormal(n: bv64)
    ensures Normal(ToText(n))
  {
    hide Symbol, Pos, SymbolToChar, CHARMAP;
    var s := ToText(n);
    assert s == Chars(n)[..|s|];
    forall i | 0 <= i < |s|
      ensures s[i] in CHARMAP
    {
      SymbolToCharIsMapped(Symbol(n, Pos(i)));
    }
    LastSymbolIsLow(n);
    SymbolToCharIsMapped(Symbol(n, Pos(12)));
  }

  lemma LowCharacter(c: char)
    requires c in CHARMAP[..16]
    ensures CharToSymbol(c) & 0x0F == CharToSymbol(c)
  {
    var k :| 0 <= k < 16 && CHARMAP[k] == c;
    hide CharToSymbol, SymbolToChar, CHARMAP;
    CharAt(k, k as bv5);
    SymbolRoundTrip(k as bv5);
    LowIndex(k);
  }

  lemma LowIndex(k: nat)
    requires k < 16
    ensures (k as bv5) & 0x0F == k as bv5
  {
  }

  /** Packing a normal string and unpacking it gives back the string. */
  lemma TextOfPack(s: string)
    requires Normal(s)
    ensures ToText(Pack(s)) == s
  {
    hide Symbol, Pos, Pack, CharToSymbol, SymbolToChar, CHARMAP;
    var cs := Chars(Pack(s));
    DotIsZero();
    forall j | 0 <= j < 13
      ensures cs[j] == if j < |s| then s[j] else '.'
    {
      PackedSymbols(s, j);
      SymbolRoundTrip(Symbol(Pack(s), Pos(j)));
      if j < |s| {
        CharRoundTrip(s[j]);
        if j == 12 {
          LowCharacter(s[12]);
        }
      }
    }
    assert cs == s + cs[|s|..];
    TrimOfDots(s, cs[|s|..]);
  }

  /** `name::set` accepts exactly the normal strings, and yields exactly the name whose text
      is the string given. */
  lemma SetIsInverseOfText(s: string, n: bv64)
    ensures Set(s).Some? <==> Normal(s)
    ensures Set(s) == Some(n) <==> ToText(n) == s
  {
    hide ToText, Pack, Normal;
    if Normal(s) {
      TextOfPack(s);
      NormalIsShort(s);
    }
    TextIsNormal(Pack(s));
    PackOfText(n);
    TextIsNormal(n);
    NormalIsShort(ToText(n));
  }

  lemma NormalIsShort(s: string)
    requires Normal(s)
    ensures |s| <= 13
  {
  }

  // ----- the part after the last dot -----

  /** Index of the last dot, or -1. */
  function LastDot(s: string): (d: int)
    ensures -1 <= d < |s|
    ensures d >= 0 ==> s[d] == '.'
    ensures forall i :: d < i < |s| ==> s[i] != '.'
  {
    if s == [] then -1
    else if s[|s| - 1] == '.' then |s| - 1
    else LastDot(s[..|s| - 1])
  }

  function AfterLastDot(s: string): string {
    s[LastDot(s) + 1..]
  }

  /** Number of bits to the right of the `d`-th character, or 0 when there is no such dot. */
  function BitsAfter(d: int): bv64
    requires -1 <= d < 12
  {
    if d == -1 then 0 else 59 - 5 * Pos(d)
  }

  lemma BitsAfterDot(d: int)
    requires -1 <= d < 12
    ensures BitsAfter(d) == 0 <==> d == -1
    ensures d >= 0 ==> BitsAfter(d) == 59 - 5 * Pos(d)
    ensures d >= 0 ==> 4 <= BitsAfter(d) <= 59
  {
  }

  /** The character at the given distance from the right is a dot. */
  predicate IsDotAt(n: bv64, remainingBits: bv64)
    requires remainingBits < 64
  {
    (n >> remainingBits) & 0x1F == 0
  }

  lemma CharacterAt(n: bv64, i: nat)
    requires 0 <= i < 12 && BitsAfter(i) < 64
    ensures IsDotAt(n, BitsAfter(i)) <==> Chars(n)[i] == '.'
  {
    hide SymbolToChar, Pos;
    SymbolRoundTrip(Symbol(n, Pos(i)));
  }

  lemma LastCharacter(n: bv64)
    ensures n & 0x0F == 0 <==> Chars(n)[12] == '.'
  {
    hide SymbolToChar;
    SymbolRoundTrip(Symbol(n, Pos(12)));
  }

  /** The expression `name_suffix` returns: the characters to the right of bit `bits`, moved to
      the left, the 4-bit thirteenth one widened to 5 bits. */
  function Cut(n: bv64, bits: bv64): bv64
    requires 4 <= bits <= 59
  {
    var thirteenthCharacter := n & 0x0F;
    var mask := (1 << bits) - 16;
    var shift := 64 - bits;
    ((n & mask) << shift) + (thirteenthCharacter << (shift - 1))
  }

  // One lemma for each number of symbols cut off, so that the distance of the shift is constant.

  lemma CutKeeps1(n: bv64, j: bv64)
    requires j < 12
    ensures Symbol(Cut(n, 59), j) == Symbol(n, 1 + j)
  {
  }

  lemma CutKeeps2(n: bv64, j: bv64)
    requires j < 11
    ensures Symbol(Cut(n, 54), j) == Symbol(n, 2 + j)
  {
  }

  lemma CutKeeps3(n: bv64, j: bv64)
    requires j < 10
    ensures Symbol(Cut(n, 49), j) == Symbol(n, 3 + j)
  {
  }

  lemma CutKeeps4(n: bv64, j: bv64)
    requires j < 9
    ensures Symbol(Cut(n, 44), j) == Symbol(n, 4 + j)
  {
  }

  lemma CutKeeps5(n: bv64, j: bv64)
    requires j < 8
    ensures Symbol(Cut(n, 39), j) == Symbol(n, 5 + j)
  {
  }

  lemma CutKeeps6(n: bv64, j: bv64)
    requires j < 7
    ensures Symbol(Cut(n, 34), j) == Symbol(n, 6 + j)
  {
  }

  lemma CutKeeps7(n: bv64, j: bv64)
    requires j < 6
    ensures Symbol(Cut(n, 29), j) == Symbol(n, 7 + j)
  {
  }

  lemma CutKeeps8(n: bv64, j: bv64)
    requires j < 5
    ensures Symbol(Cut(n, 24), j) == Symbol(n, 8 + j)
  {
  }

  lemma CutKeeps9(n: bv64, j: bv64)
    requires j < 4
    ensures Symbol(Cut(n, 19), j) == Symbol(n, 9 + j)
  {
  }

  lemma CutKeeps10(n: bv64, j: bv64)
    requires j < 3
    ensures Symbol(Cut(n, 14), j) == Symbol(n, 10 + j)
  {
  }

  lemma CutKeeps11(n: bv64, j: bv64)
    requires j < 2
    ensures Symbol(Cut(n, 9), j) == Symbol(n, 11 + j)
  {
  }

  lemma CutKeeps12(n: bv64, j: bv64)
    requires j < 1
    ensures Symbol(Cut(n, 4), j) == Symbol(n, 12 + j)
  {
  }

  lemma CutKeepsSymbols(n: bv64, d: bv64, j: bv64)
    requires d < 12 && j < 12 - d
    ensures Symbol(Cut(n, 59 - 5 * d), j) == Symbol(n, d + 1 + j)
  {
    hide Symbol, Cut;
    match d
    case 0 => CutKeeps1(n, j);
    case 1 => CutKeeps2(n, j);
    case 2 => CutKeeps3(n, j);
    case 3 => CutKeeps4(n, j);
    case 4 => CutKeeps5(n, j);
    case 5 => CutKeeps6(n, j);
    case 6 => CutKeeps7(n, j);
    case 7 => CutKeeps8(n, j);
    case 8 => CutKeeps9(n, j);
    case 9 => CutKeeps10(n, j);
    case 10 => CutKeeps11(n, j);
    case 11 => CutKeeps12(n, j);
    case _ => assert false;
  }

  lemma CutFillsWithDots(n: bv64, d: bv64, j: bv64)
    requires d < 12 && 12 - d <= j < 13
    ensures Symbol(Cut(n, 59 - 5 * d), j) == 0
  {
  }

  lemma CutCharacter(n: bv64, d: nat, j: nat)
    requires d < 12 && j < 13
    ensures Chars(Cut(n, 59 - 5 * Pos(d)))[j] == if d + 1 + j < 13 then Chars(n)[d + 1 + j] else '.'
  {
    hide Symbol, Pos, Cut, SymbolToChar;
    PosOfZero();
    PosOfNext(d);
    var r := Cut(n, 59 - 5 * Pos(d));
    if d + 1 + j < 13 {
      PosAdds(d + 1, j);
      PosIsBelow(d, j);
      CutKeepsSymbols(n, Pos(d), Pos(j));
    } else {
      PosIsAtLeast(d, j);
      CutFillsWithDots(n, Pos(d), Pos(j));
      SymbolRoundTrip(Symbol(r, Pos(j)));
    }
  }

  lemma PosIsBelow(d: nat, j: nat)
    requires d < 12 && d + j < 12
    ensures Pos(j) < 12 - Pos(d)
  {
  }

  lemma PosIsAtLeast(d: nat, j: nat)
    requires d < 12 && j < 13 && d + j >= 12
    ensures 12 - Pos(d) <= Pos(j)
  {
  }

  lemma TrimKeeps(t: string)
    requires t != [] ==> t[|t| - 1] != '.'
    ensures TrimRight(t) == t
  {
  }

  lemma TrimOfTail(s: string, k: nat)
    requires k <= |TrimRight(s)|
    ensures TrimRight(s[k..]) == TrimRight(s)[k..]
  {
    hide TrimRight;
    TrimLeavesDots(s);
    var t := TrimRight(s);
    TrimKeeps(t[k..]);
    assert s[k..] == t[k..] + s[|t|..];
    TrimOfDots(t[k..], s[|t|..]);
  }

  /** The text of the cut name is the part of the text after the dot at `d`. */
  lemma CutText(n: bv64, d: nat, r: bv64)
    requires d < 12 && d < |ToText(n)| && 4 <= 59 - 5 * Pos(d) <= 59 && r == Cut(n, 59 - 5 * Pos(d))
    ensures ToText(r) == ToText(n)[d + 1..]
  {
    hide Cut, Pos, Chars, TrimRight, Symbol, SymbolToChar;
    CutCharacters(n, d, r);
    ShiftedText(Chars(n), Chars(r), d + 1);
  }

  lemma CutCharacters(n: bv64, d: nat, r: bv64)
    requires d < 12 && 4 <= 59 - 5 * Pos(d) <= 59 && r == Cut(n, 59 - 5 * Pos(d))
    ensures forall j :: 0 <= j < 13 ==> Chars(r)[j] == if d + 1 + j < 13 then Chars(n)[d + 1 + j] else '.'
  {
    hide Cut, Pos, Chars, Symbol, SymbolToChar;
    forall j | 0 <= j < 13
      ensures Chars(r)[j] == if d + 1 + j < 13 then Chars(n)[d + 1 + j] else '.'
    {
      CutCharacter(n, d, j);
    }
  }

  lemma ShiftedText(cs: string, rs: string, k: nat)
    requires |cs| == |rs| && k <= |TrimRight(cs)|
    requires forall j :: 0 <= j < |cs| ==> rs[j] == if k + j < |cs| then cs[k + j] else '.'
    ensures TrimRight(rs) == TrimRight(cs)[k..]
  {
    hide TrimRight;
    var m := |cs| - k;
    assert rs == cs[k..] + rs[m..];
    TrimOfDots(cs[k..], rs[m..]);
    TrimOfTail(cs, k);
  }

  lemma DotStep(s: string, c: char)
    ensures LastDot(s + [c]) == if c == '.' then |s| else LastDot(s)
    ensures TrimRight(s + [c]) == if c == '.' then TrimRight(s) else s + [c]
  {
    assert (s + [c])[..|s|] == s;
  }

  /** `name_suffix`. The loop variable runs over the twelve 5-bit characters; the source counts
      the bits to the right of each from 59 down to 4. */
  method NameSuffix(n: bv64) returns (r: bv64)
    ensures ToText(r) == AfterLastDot(ToText(n))
    ensures r == Suffix(n)
  {
    hide Symbol, Pos, SymbolToChar, BitsAfter, Chars, LastDot, TrimRight, Cut, IsDotAt, Pack;
    var remainingBitsAfterLastActualDot: bv64 := 0;
    var tmp: bv64 := 0;
    ghost var cs := Chars(n);
    EmptyPrefix();
    BitsAfterDot(-1);
    for i := 0 to 12
      invariant tmp == BitsAfter(LastDot(cs[..i]))
      invariant remainingBitsAfterLastActualDot == BitsAfter(LastDot(TrimRight(cs[..i])))
    {
      BitsAfterDot(i);
      var remainingBits := BitsAfter(i);
      CharacterAt(n, i);
      DotStep(cs[..i], cs[i]);
      assert cs[..i] + [cs[i]] == cs[..i + 1];
      if IsDotAt(n, remainingBits) {
        tmp := remainingBits;
      } else {
        remainingBitsAfterLastActualDot := tmp;
      }
    }
    LastCharacter(n);
    DotStep(cs[..12], cs[12]);
    assert cs[..12] + [cs[12]] == cs;
    if n & 0x0F != 0 {
      remainingBitsAfterLastActualDot := tmp;
    }
    ghost var d := LastDot(ToText(n));
    BitsAfterDot(d);
    if remainingBitsAfterLastActualDot == 0 {
      PackOfText(n);
      return n;
    }
    r := Cut(n, remainingBitsAfterLastActualDot);
    CutText(n, d, r);
    PackOfText(r);
  }

  lemma EmptyPrefix()
    ensures LastDot([]) == -1 && TrimRight([]) == []
  {
  }

  /** The name whose text is the part of the given name's text after its last dot. */
  function Suffix(n: bv64): bv64 {
    Pack(AfterLastDot(ToText(n)))
  }

  lemma SuffixText(n: bv64)
    ensures ToText(Suffix(n)) == AfterLastDot(ToText(n))
  {
    hide ToText, Pack, CHARMAP;
    TextIsNormal(n);
    TextOfPack(AfterLastDot(ToText(n)));
  }

  /** Taking the suffix twice changes nothing more, and a name is its own suffix exactly when
      its text holds no dot. */
  lemma SuffixIsIdempotent(n: bv64)
    ensures Suffix(Suffix(n)) == Suffix(n)
    ensures Suffix(n) == n <==> '.' !in ToText(n)
  {
    hide ToText, Pack, LastDot;
    SuffixText(n);
    SuffixText(Suffix(n));
    PackOfText(n);
    var t := ToText(n);
    assert AfterLastDot(AfterLastDot(t)) == AfterLastDot(t);
  }

  /** The symbols stand for the dot, the digits from 1 to 5 and the letters, in this order. */
  lemma SymbolsAscend(c: bv5, d: bv5)
    requires c < d
    ensures SymbolToChar(c) < SymbolToChar(d)
    ensures SymbolToChar(c) == '.' || '1' <= SymbolToChar(c) <= '5' || 'a' <= SymbolToChar(c) <= 'z'
  {
    LettersAscend(c as int, d as int);
    NextLetter(c as int);
  }

  function Letter(i: nat): char
    requires i < 32
  {
    CHARMAP[i]
  }

  lemma {:induction false} LettersAscend(i: nat, j: nat)
    requires i < j < 32
    ensures Letter(i) < Letter(j)
    decreases j
  {
    hide Letter;
    NextLetter(j - 1);
    if i < j - 1 {
      LettersAscend(i, j - 1);
    }
  }

  lemma NextLetter(i: nat)
    requires i < 31
    ensures Letter(i) < Letter(i + 1)
    ensures Letter(i) == '.' || '1' <= Letter(i) <= '5' || 'a' <= Letter(i) <= 'z'
  {
  }

  /** Names are packed from the high bits on. */
  lemma PackedFromHighBits()
    ensures Pack("eosio") == 0x5530_EA00_0000_0000
  {
    var s := "eosio";
    assert PackLeading(s, 0) == 0;
    assert PackLeading(s, 1) == 0x5000_0000_0000_0000;
    assert PackLeading(s, 2) == 0x5500_0000_0000_0000;
    assert PackLeading(s, 3) == 0x5530_0000_0000_0000;
    assert PackLeading(s, 4) == 0x5530_E000_0000_0000;
    assert PackLeading(s, 5) == 0x5530_EA00_0000_0000;
  }
}
