/** The packed form of the built-in types: integers with the low byte first, sizes in groups of
    seven bits, strings and lists behind their size, optional values behind a flag. */
module Primitives {
  import opened Options

  type Byte = n: nat | n < 0x100

  type Bytes = seq<Byte>

  /** A value read from a stream, and the bytes after it. */
  datatype Read<T> = Fail | Got(value: T, rest: Bytes)

  /** A value of any type, as it is written in JSON. */
  datatype Value =
    | Null
    | Num(n: nat)
    | Text(s: string)
    | List(items: seq<Value>)
    | Object(fields: map<string, Value>)

  const LIMIT: nat := 0x1_0000_0000

  // ----- sizes -----

  function PackSize(n: nat): (b: Bytes)
    ensures b != []
  {
    if n < 128 then [n] else [n % 128 + 128] + PackSize(n / 128)
  }

  /** At most `left` more groups are read. */
  function UnpackGroups(s: Bytes, left: nat): Read<nat> {
    if s == [] || left == 0 then Fail
    else if s[0] < 128 || left == 1 then Got(s[0] % 128, s[1..])
    else
      var r := UnpackGroups(s[1..], left - 1);
      if r.Fail? then Fail else Got(s[0] % 128 + 128 * r.value, r.rest)
  }

  /** Five groups give up to 35 bits, of which 32 are kept. */
  function UnpackSize(s: Bytes): Read<nat> {
    var r := UnpackGroups(s, 5);
    if r.Fail? then Fail else Got(r.value % LIMIT, r.rest)
  }

  function Power128(k: nat): nat {
    if k == 0 then 1 else 128 * Power128(k - 1)
  }

  lemma FitsGroups(n: nat, left: nat)
    requires left > 0 && 128 <= n < Power128(left)
    ensures left > 1 && n / 128 < Power128(left - 1)
  {
    assert Power128(0) == 1;
  }

  lemma FiveGroups()
    ensures Power128(5) == 34359738368
  {
    assert Power128(0) == 1 && Power128(1) == 128 && Power128(2) == 16384;
    assert Power128(3) == 2097152 && Power128(4) == 268435456;
  }

  lemma PackSizeSplits(n: nat, rest: Bytes)
    ensures n < 128 ==> PackSize(n) + rest == [n] + rest && ([n] + rest)[1..] == rest
    ensures n >= 128 ==> PackSize(n) + rest == [n % 128 + 128] + (PackSize(n / 128) + rest)
  {
  }

  lemma {:induction false} UnpackGroupsOfSize(n: nat, rest: Bytes, left: nat)
    requires left > 0 && n < Power128(left)
    ensures UnpackGroups(PackSize(n) + rest, left) == Got(n, rest)
  {
    hide Power128, PackSize;
    PackSizeSplits(n, rest);
    if n >= 128 {
      FitsGroups(n, left);
      UnpackGroupsOfSize(n / 128, rest, left - 1);
      UnpackOneGroup(n % 128 + 128, PackSize(n / 128) + rest, left);
    }
  }

  lemma UnpackOneGroup(b: Byte, s: Bytes, left: nat)
    requires b >= 128 && left > 1
    ensures var r := UnpackGroups(s, left - 1);
            UnpackGroups([b] + s, left) == if r.Fail? then Fail else Got(b - 128 + 128 * r.value, r.rest)
  {
    assert ([b] + s)[1..] == s;
  }

  lemma UnpackPackedSize(n: nat, rest: Bytes)
    requires n < LIMIT
    ensures UnpackSize(PackSize(n) + rest) == Got(n, rest)
  {
    hide Power128, PackSize, UnpackGroups;
    FiveGroups();
    UnpackGroupsOfSize(n, rest, 5);
  }

  // ----- integers -----

  function PackInt(n: nat, width: nat): (b: Bytes)
    ensures |b| == width
  {
    if width == 0 then [] else [n % 0x100] + PackInt(n / 0x100, width - 1)
  }

  function UnpackInt(s: Bytes, width: nat): Read<nat> {
    if width == 0 then Got(0, s)
    else if s == [] then Fail
    else
      var r := UnpackInt(s[1..], width - 1);
      if r.Fail? then Fail else Got(s[0] + 0x100 * r.value, r.rest)
  }

  function Power256(k: nat): nat {
    if k == 0 then 1 else 0x100 * Power256(k - 1)
  }

  lemma FitsBytes(n: nat, width: nat)
    requires width > 0 && n < Power256(width)
    ensures n / 0x100 < Power256(width - 1)
  {
  }

  lemma PackIntSplits(n: nat, width: nat, rest: Bytes)
    requires width > 0
    ensures PackInt(n, width) + rest == [n % 0x100] + (PackInt(n / 0x100, width - 1) + rest)
  {
  }

  lemma UnpackOneByte(b: Byte, s: Bytes, width: nat)
    requires width > 0
    ensures var r := UnpackInt(s, width - 1);
            UnpackInt([b] + s, width) == if r.Fail? then Fail else Got(b + 0x100 * r.value, r.rest)
  {
    assert ([b] + s)[1..] == s;
  }

  lemma {:induction false} UnpackPackedInt(n: nat, width: nat, rest: Bytes)
    requires n < Power256(width)
    ensures UnpackInt(PackInt(n, width) + rest, width) == Got(n, rest)
    decreases width, 1
  {
    if width == 0 {
      assert PackInt(n, width) + rest == rest;
    } else {
      BytesAfter(n, width, rest);
    }
  }

  lemma {:induction false} BytesAfter(n: nat, width: nat, rest: Bytes)
    requires width > 0 && n < Power256(width)
    ensures UnpackInt(PackInt(n, width) + rest, width) == Got(n, rest)
    decreases width, 0
  {
    hide Power256, PackInt, UnpackInt;
    FitsBytes(n, width);
    PackIntSplits(n, width, rest);
    UnpackOneByte(n % 0x100, PackInt(n / 0x100, width - 1) + rest, width);
    UnpackPackedInt(n / 0x100, width - 1, rest);
  }

  lemma {:induction false} UnpackedIntFits(s: Bytes, width: nat)
    ensures UnpackInt(s, width).Got? ==> UnpackInt(s, width).value < Power256(width)
  {
    if width > 0 && s != [] {
      UnpackedIntFits(s[1..], width - 1);
    }
  }

  // ----- strings -----

  function PackChars(t: string): Option<Bytes> {
    if t == "" then Some([])
    else
      var r := PackChars(t[1..]);
      if t[0] as int >= 0x100 || r.None? then None else Some([t[0] as int] + r.value)
  }

  function Chars(b: Bytes): string {
    seq(|b|, i requires 0 <= i < |b| => b[i] as char)
  }

  lemma {:induction false} CharsOfPacked(t: string)
    requires PackChars(t).Some?
    ensures |PackChars(t).value| == |t| && Chars(PackChars(t).value) == t
  {
    if t != "" {
      CharsOfPacked(t[1..]);
      var b := PackChars(t).value;
      assert b[1..] == PackChars(t[1..]).value;
      assert t == [t[0]] + t[1..];
    }
  }

  // ----- one value of a built-in type -----

  /** The number of bytes of an integer type; 0 for other types. */
  function Width(t: string): nat {
    if t == "bool" || t == "uint8" then 1
    else if t == "uint16" then 2
    else if t == "uint32" then 4
    else if t == "uint64" || t == "name" then 8
    else 0
  }

  predicate IsBuiltin(t: string) {
    Width(t) > 0 || t == "string"
  }

  predicate InRange(t: string, n: nat) {
    n < Power256(Width(t))
  }

  function PackOne(t: string, v: Value): (r: Option<Bytes>)
    requires IsBuiltin(t)
    ensures r.Some? ==> r.value != []
  {
    if Width(t) > 0 then
      if v.Num? && InRange(t, v.n) then Some(PackInt(v.n, Width(t))) else None
    else if v.Text? && |v.s| < LIMIT && PackChars(v.s).Some? then
      Some(PackSize(|v.s|) + PackChars(v.s).value)
    else None
  }

  function UnpackOne(t: string, s: Bytes): Read<Value>
    requires IsBuiltin(t)
  {
    if Width(t) > 0 then
      var r := UnpackInt(s, Width(t));
      if r.Fail? then Fail else Got(Num(r.value), r.rest)
    else
      var r := UnpackSize(s);
      if r.Fail? || |r.rest| < r.value then Fail
      else Got(Text(Chars(r.rest[..r.value])), r.rest[r.value..])
  }

  lemma UnpackPackedOne(t: string, v: Value, rest: Bytes)
    requires IsBuiltin(t) && PackOne(t, v).Some?
    ensures UnpackOne(t, PackOne(t, v).value + rest) == Got(v, rest)
  {
    if Width(t) > 0 {
      UnpackPackedInt(v.n, Width(t), rest);
    } else {
      var chars := PackChars(v.s).value;
      assert PackOne(t, v).value + rest == PackSize(|v.s|) + (chars + rest);
      UnpackPackedSize(|v.s|, chars + rest);
      CharsOfPacked(v.s);
      assert (chars + rest)[..|v.s|] == chars && (chars + rest)[|v.s|..] == rest;
    }
  }

  // ----- lists and optional values of a built-in type -----

  function PackMany(t: string, vs: seq<Value>): Option<Bytes>
    requires IsBuiltin(t)
  {
    if vs == [] then Some([])
    else
      var first, others := PackOne(t, vs[0]), PackMany(t, vs[1..]);
      if first.None? || others.None? then None else Some(first.value + others.value)
  }

  function UnpackMany(t: string, n: nat, s: Bytes): Read<seq<Value>>
    requires IsBuiltin(t)
  {
    if n == 0 then Got([], s)
    else
      var first := UnpackOne(t, s);
      if first.Fail? then Fail
      else
        var others := UnpackMany(t, n - 1, first.rest);
        if others.Fail? then Fail else Got([first.value] + others.value, others.rest)
  }

  lemma {:induction false} UnpackPackedMany(t: string, vs: seq<Value>, rest: Bytes)
    requires IsBuiltin(t) && PackMany(t, vs).Some?
    ensures UnpackMany(t, |vs|, PackMany(t, vs).value + rest) == Got(vs, rest)
  {
    hide PackOne, UnpackOne;
    if vs == [] {
      assert PackMany(t, vs).value + rest == rest;
    } else {
      var first, others := PackOne(t, vs[0]).value, PackMany(t, vs[1..]).value;
      assert PackMany(t, vs).value + rest == first + (others + rest);
      UnpackPackedOne(t, vs[0], others + rest);
      UnpackPackedMany(t, vs[1..], rest);
      assert vs == [vs[0]] + vs[1..];
    }
  }

  lemma {:induction false} UnpackedManyCount(t: string, n: nat, s: Bytes)
    requires IsBuiltin(t)
    ensures UnpackMany(t, n, s).Got? ==> |UnpackMany(t, n, s).value| == n
  {
    hide UnpackOne;
    if n > 0 && UnpackOne(t, s).Got? {
      UnpackedManyCount(t, n - 1, UnpackOne(t, s).rest);
    }
  }
}
