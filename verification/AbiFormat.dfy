/** The layout of packed data: integers with the low byte first, sizes in groups of seven bits, parts
    one after the other; and how the presence of an optional value is read. */
module AbiFormat {
  import opened Options
  import opened Primitives
  import opened Abi
  import opened AbiRoundTrip

  // ----- integers -----

  /** The number whose digits to the base 256 are the bytes, the first one lowest. */
  function Weighed(b: Bytes): nat {
    if b == [] then 0 else Weighed(b[..|b| - 1]) + b[|b| - 1] * Power256(|b| - 1)
  }

  lemma {:induction false} WeighedFromFront(x: Byte, b: Bytes)
    ensures Weighed([x] + b) == x + 0x100 * Weighed(b)
  {
    var all := [x] + b;
    if b != [] {
      var n := |b| - 1;
      assert all[..|all| - 1] == [x] + b[..n];
      WeighedFromFront(x, b[..n]);
      OneDigitUp(b[n], n);
    } else {
      assert all[..0] == [];
      assert Power256(0) == 1;
    }
  }

  lemma OneDigitUp(d: nat, n: nat)
    ensures d * Power256(n + 1) == 0x100 * (d * Power256(n))
  {
  }

  /** An integer of `width` bytes is packed with the low byte first. */
  lemma {:induction false} PackedInteger(n: nat, width: nat)
    requires n < Power256(width)
    ensures Weighed(PackInt(n, width)) == n && |PackInt(n, width)| == width
  {
    if width > 0 {
      FitsBytes(n, width);
      PackedInteger(n / 0x100, width - 1);
      WeighedFromFront(n % 0x100, PackInt(n / 0x100, width - 1));
    }
  }

  /** Reading an integer takes just its bytes, and fails when there are too few. */
  lemma {:induction false} IntegerIsRead(s: Bytes, width: nat)
    ensures UnpackInt(s, width) == if |s| < width then Fail else Got(Weighed(s[..width]), s[width..])
  {
    if width > 0 && s != [] {
      IntegerIsRead(s[1..], width - 1);
      if |s| >= width {
        WeighedFromFront(s[0], s[1..][..width - 1]);
        assert s[..width] == [s[0]] + s[1..][..width - 1];
      }
    }
  }

  /** The widths of the integer types; `bool` is one byte of any value. */
  lemma Widths(n: nat)
    ensures Width("uint8") == 1 && Width("uint16") == 2 && Width("uint32") == 4 && Width("uint64") == 8 && Width("name") == 8
    ensures PackOne("bool", Num(n)) == if n < 0x100 then Some([n]) else None
  {
    assert Power256(0) == 1 && Power256(1) == 0x100;
    if n < 0x100 {
      OneByte(n);
    }
  }

  lemma OneByte(n: Byte)
    ensures PackInt(n, 1) == [n]
  {
    assert PackInt(n / 0x100, 0) == [];
  }

  // ----- sizes -----

  /** The number whose digits to the base 128 are the low seven bits of the bytes. */
  function Grouped(b: Bytes): nat {
    if b == [] then 0 else Grouped(b[..|b| - 1]) + b[|b| - 1] % 128 * Power128(|b| - 1)
  }

  lemma {:induction false} GroupedFromFront(x: Byte, b: Bytes)
    ensures Grouped([x] + b) == x % 128 + 128 * Grouped(b)
  {
    var all := [x] + b;
    if b != [] {
      var n := |b| - 1;
      assert all[..|all| - 1] == [x] + b[..n];
      GroupedFromFront(x, b[..n]);
      OneGroupUp(b[n] % 128, n);
    } else {
      assert all[..0] == [];
      assert Power128(0) == 1;
    }
  }

  lemma OneGroupUp(d: nat, n: nat)
    ensures d * Power128(n + 1) == 128 * (d * Power128(n))
  {
  }

  /** A size is packed in groups of seven bits, low ones first, with the high bit set on all but the
      last, and without a needless last group. */
  lemma {:induction false} PackedSize(n: nat)
    ensures var b := PackSize(n);
            && Grouped(b) == n && b[|b| - 1] < 128 && (|b| > 1 ==> b[|b| - 1] != 0)
            && forall i :: 0 <= i < |b| - 1 ==> b[i] >= 128
  {
    if n < 128 {
      GroupedFromFront(n, []);
      assert [n] + [] == [n];
    } else {
      PackedSize(n / 128);
      GroupedFromFront(n % 128 + 128, PackSize(n / 128));
      TopGroup(n / 128);
    }
  }

  lemma TopGroup(n: nat)
    requires n > 0
    ensures var b := PackSize(n); |b| == 1 ==> b[0] != 0
  {
  }

  /** Where a size ends: at the first byte without the high bit, or at the fifth byte. */
  ghost predicate SizeEndsAt(s: Bytes, k: nat, left: nat) {
    k < |s| && k < left && (k == left - 1 || s[k] < 128) && forall i :: 0 <= i < k ==> s[i] >= 128
  }

  lemma {:induction false} GroupsAreRead(s: Bytes, k: nat, left: nat)
    requires SizeEndsAt(s, k, left)
    ensures UnpackGroups(s, left) == Got(Grouped(s[..k + 1]), s[k + 1..])
  {
    hide Grouped;
    GroupedFromFront(s[0], s[1..][..k]);
    assert s[..k + 1] == [s[0]] + s[1..][..k];
    if k == 0 {
      GroupedNone();
      assert s[1..][..0] == [];
    } else {
      GroupsAreRead(s[1..], k - 1, left - 1);
      assert s[1..][k..] == s[k + 1..];
    }
  }

  lemma GroupedNone()
    ensures Grouped([]) == 0
  {
  }

  lemma {:induction false} GroupsRunOut(s: Bytes, left: nat)
    requires |s| < left && forall i :: 0 <= i < |s| ==> s[i] >= 128
    ensures UnpackGroups(s, left) == Fail
  {
    if s != [] {
      GroupsRunOut(s[1..], left - 1);
    }
  }

  /** A size is read from its groups of seven bits, of which 32 bits are kept. */
  lemma SizeIsRead(s: Bytes, k: nat)
    requires SizeEndsAt(s, k, 5)
    ensures UnpackSize(s) == Got(Grouped(s[..k + 1]) % 0x1_0000_0000, s[k + 1..])
  {
    hide UnpackGroups;
    GroupsAreRead(s, k, 5);
  }

  lemma SizeRunsOut(s: Bytes)
    requires |s| < 5 && forall i :: 0 <= i < |s| ==> s[i] >= 128
    ensures UnpackSize(s) == Fail
  {
    hide UnpackGroups;
    GroupsRunOut(s, 5);
  }

  // ----- text -----

  lemma {:induction false} CharsArePacked(t: string, i: nat)
    requires PackChars(t).Some? && i < |t|
    ensures var b := PackChars(t).value; |b| == |t| && b[i] == t[i] as int
  {
    if |t| > 1 {
      CharsArePacked(t[1..], if i > 0 then i - 1 else 0);
    }
  }

  /** Text is packed as its length and one byte for every character. */
  lemma PackedText(t: string, i: nat)
    requires PackOne("string", Text(t)).Some? && i < |t|
    ensures var b, n := PackOne("string", Text(t)).value, |PackSize(|t|)|;
            |b| == n + |t| && b[..n] == PackSize(|t|) && b[n + i] == t[i] as int
  {
    hide PackSize;
    CharsArePacked(t, i);
  }

  // ----- the names of types -----

  lemma Endings(t: string, u: string)
    requires EndsWith(t, u)
    ensures t == t[..|t| - |u|] + u
  {
  }

  lemma EndsSo(u: string, e: string)
    ensures EndsWith(u + e, e) && (u + e)[..|u|] == u
  {
  }

  /** The name of a type tells its form by its end. */
  lemma FormOfName(u: string)
    ensures var t := u + "[]"; IsArray(t) && Fundamental(t) == u
    ensures var t := u + "?"; IsOptional(t) && !IsArray(t) && Fundamental(t) == u
    ensures var t := u + "$"; IsExtension(t) && Plain(t) == u
  {
    hide EndsWith;
    EndsSo(u, "[]");
    EndsSo(u, "?");
    EndsSo(u, "$");
    NotArray(u);
  }

  lemma NotArray(u: string)
    ensures !EndsWith(u + "?", "[]")
  {
    hide EndsWith;
    if EndsWith(u + "?", "[]") {
      LastOfEnding(u + "?", "[]");
    }
  }

  lemma LastOfEnding(t: string, e: string)
    requires EndsWith(t, e) && e != ""
    ensures t[|t| - 1] == e[|e| - 1]
  {
    assert t[|t| - 1] == t[|t| - |e|..][|e| - 1];
  }

  lemma NameOfForm(t: string)
    ensures if IsArray(t) then t == Fundamental(t) + "[]" else if IsOptional(t) then t == Fundamental(t) + "?" else Fundamental(t) == t
    ensures if IsExtension(t) then t == Plain(t) + "$" else Plain(t) == t
  {
    if IsArray(t) {
      Endings(t, "[]");
    } else if IsOptional(t) {
      Endings(t, "?");
    }
    if IsExtension(t) {
      Endings(t, "$");
    }
  }

  // ----- definitions of types -----

  /** A chain of definitions that ends with a name that is not defined. */
  ghost predicate LeadsTo(abi: Abi, names: seq<string>) {
    && names != [] && names[|names| - 1] !in abi.typedefs
    && forall i :: 0 <= i < |names| - 1 ==> names[i] in abi.typedefs && abi.typedefs[names[i]] == names[i + 1]
  }

  lemma LeadsOn(abi: Abi, names: seq<string>, k: nat)
    requires LeadsTo(abi, names) && k < |names|
    ensures LeadsTo(abi, names[k..])
  {
  }

  lemma {:induction false} OneLength(abi: Abi, names: seq<string>, others: seq<string>)
    requires LeadsTo(abi, names) && LeadsTo(abi, others) && names[0] == others[0]
    ensures |names| == |others|
    decreases |names|
  {
    if names[0] in abi.typedefs {
      assert |names| > 1 && |others| > 1;
      LeadsOn(abi, names, 1);
      LeadsOn(abi, others, 1);
      OneLength(abi, names[1..], others[1..]);
    }
  }

  lemma NoneTwice(abi: Abi, names: seq<string>, i: nat, j: nat)
    requires LeadsTo(abi, names) && i < j < |names|
    ensures names[i] != names[j]
  {
    if names[i] == names[j] {
      LeadsOn(abi, names, i);
      LeadsOn(abi, names, j);
      OneLength(abi, names[i..], names[j..]);
    }
  }

  lemma LeadsWithoutFirst(abi: Abi, names: seq<string>)
    requires LeadsTo(abi, names) && |names| > 1
    ensures LeadsTo(abi.(typedefs := abi.typedefs - {names[0]}), names[1..])
  {
    forall i | 0 < i < |names| ensures names[i] != names[0] {
      NoneTwice(abi, names, 0, i);
    }
  }

  lemma OneFewer(m: map<string, string>, k: string)
    requires k in m
    ensures |m - {k}| == |m| - 1
  {
    assert (m - {k}).Keys == m.Keys - {k};
    assert |m - {k}| == |(m - {k}).Keys|;
  }

  /** A chain that ends uses every definition at most once. */
  lemma {:induction false} ChainFits(abi: Abi, names: seq<string>)
    requires LeadsTo(abi, names)
    ensures |names| - 1 <= |abi.typedefs|
    decreases |names|
  {
    if |names| > 1 {
      LeadsWithoutFirst(abi, names);
      OneFewer(abi.typedefs, names[0]);
      ChainFits(abi.(typedefs := abi.typedefs - {names[0]}), names[1..]);
    }
  }

  lemma {:induction false} FollowsChain(abi: Abi, names: seq<string>, n: nat)
    requires LeadsTo(abi, names) && 1 < |names| <= n + 1
    ensures Follow(abi, names[0], n) == Some(names[|names| - 1])
    decreases n
  {
    if |names| > 2 {
      LeadsOn(abi, names, 1);
      FollowsChain(abi, names[1..], n - 1);
    }
  }

  /** A type stands for the end of its chain of definitions, however long it is. */
  lemma ResolveFollows(abi: Abi, names: seq<string>)
    requires LeadsTo(abi, names)
    ensures Resolve(abi, names[0]) == names[|names| - 1]
  {
    if |names| > 1 {
      ChainFits(abi, names);
      FollowsChain(abi, names, |abi.typedefs|);
    }
  }

  // ----- parts -----

  function Join(parts: seq<Bytes>): Bytes {
    if parts == [] then [] else Join(parts[..|parts| - 1]) + parts[|parts| - 1]
  }

  lemma {:induction false} JoinFromFront(p: Bytes, parts: seq<Bytes>)
    ensures Join([p] + parts) == p + Join(parts)
  {
    var all := [p] + parts;
    if parts != [] {
      assert all[..|all| - 1] == [p] + parts[..|parts| - 1];
      JoinFromFront(p, parts[..|parts| - 1]);
    } else {
      assert all[..0] == [] && Join([]) == [];
    }
  }

  /** The parts are what the elements pack to. */
  ghost predicate PartsOf(abi: Abi, t: string, vs: seq<Value>, room: nat, parts: seq<Bytes>) {
    |parts| == |vs| && forall i :: 0 <= i < |vs| ==> Encode(abi, t, vs[i], room, false) == Some(parts[i])
  }

  lemma {:induction false} ItemsLayout(abi: Abi, t: string, vs: seq<Value>, room: nat, parts: seq<Bytes>)
    requires PartsOf(abi, t, vs, room, parts)
    ensures EncodeItems(abi, t, vs, room) == Some(Join(parts))
    decreases |vs|
  {
    hide Encode;
    if vs == [] {
    } else {
      assert PartsOf(abi, t, vs[1..], room, parts[1..]);
      ItemsLayout(abi, t, vs[1..], room, parts[1..]);
      JoinFromFront(parts[0], parts[1..]);
      assert [parts[0]] + parts[1..] == parts;
    }
  }

  /** An array is packed as its length and its elements in order. */
  lemma ArrayLayout(abi: Abi, t: string, vs: seq<Value>, room: nat, ext: bool, parts: seq<Bytes>)
    requires room > 0 && !IsBuiltin(Fundamental(Resolve(abi, t))) && IsArray(Resolve(abi, t)) && |vs| < LIMIT
    requires PartsOf(abi, Fundamental(Resolve(abi, t)), vs, room - 1, parts)
    ensures Encode(abi, t, List(vs), room, ext) == Some(PackSize(|vs|) + Join(parts))
  {
    hide EncodeItems, PackSize, IsBuiltin, IsArray, Fundamental, Resolve, Join, PartsOf;
    ItemsLayout(abi, Fundamental(Resolve(abi, t)), vs, room - 1, parts);
  }

  /** The parts are what the named fields pack to. */
  ghost predicate FieldsOf(abi: Abi, fields: seq<Field>, m: map<string, Value>, room: nat, ext: bool, parts: seq<Bytes>) {
    && |parts| == |fields|
    && forall i :: 0 <= i < |fields| ==> FieldIs(abi, fields[i], m, room, ext && i == |fields| - 1, parts[i])
  }

  ghost predicate FieldIs(abi: Abi, f: Field, m: map<string, Value>, room: nat, ext: bool, part: Bytes) {
    f.name in m && Encode(abi, Plain(f.ty), m[f.name], room, ext) == Some(part)
  }

  lemma FieldsOfRest(abi: Abi, fields: seq<Field>, m: map<string, Value>, room: nat, ext: bool, parts: seq<Bytes>)
    requires FieldsOf(abi, fields, m, room, ext, parts) && fields != []
    ensures FieldIs(abi, fields[0], m, room, ext && |fields| == 1, parts[0]) && FieldsOf(abi, fields[1..], m, room, ext, parts[1..])
  {
    hide FieldIs;
    assert FieldIs(abi, fields[0], m, room, ext && 0 == |fields| - 1, parts[0]);
    forall i | 0 <= i < |fields| - 1 ensures FieldIs(abi, fields[1..][i], m, room, ext && i == |fields[1..]| - 1, parts[1..][i]) {
      assert FieldIs(abi, fields[i + 1], m, room, ext && i + 1 == |fields| - 1, parts[i + 1]);
    }
  }

  lemma {:induction false} FieldsLayout(abi: Abi, fields: seq<Field>, m: map<string, Value>, room: nat, ext: bool, parts: seq<Bytes>)
    requires FieldsOf(abi, fields, m, room, ext, parts)
    ensures EncodeFields(abi, fields, m, room, ext, false) == Some(Join(parts))
    decreases |fields|
  {
    hide Encode, Plain, IsExtension, FieldsOf;
    if fields == [] {
      NoParts(abi, m, room, ext, parts);
    } else {
      SomeParts(abi, fields, m, room, ext, parts);
      FieldsOfRest(abi, fields, m, room, ext, parts);
      FieldsLayout(abi, fields[1..], m, room, ext, parts[1..]);
      JoinFromFront(parts[0], parts[1..]);
      assert [parts[0]] + parts[1..] == parts;
    }
  }

  lemma NoParts(abi: Abi, m: map<string, Value>, room: nat, ext: bool, parts: seq<Bytes>)
    requires FieldsOf(abi, [], m, room, ext, parts)
    ensures parts == []
  {
  }

  lemma SomeParts(abi: Abi, fields: seq<Field>, m: map<string, Value>, room: nat, ext: bool, parts: seq<Bytes>)
    requires FieldsOf(abi, fields, m, room, ext, parts)
    ensures |parts| == |fields|
  {
  }

  /** A struct is packed as its base and then its own fields, in the order of their declaration. */
  lemma StructLayout(abi: Abi, name: string, m: map<string, Value>, room: nat, ext: bool, base: Bytes, parts: seq<Bytes>)
    requires name in abi.structs && FieldsOf(abi, abi.structs[name].fields, m, room, ext, parts)
    requires var st := abi.structs[name];
             if st.base == "" then base == [] else Encode(abi, Resolve(abi, st.base), Object(m), room, false) == Some(base)
    ensures EncodeStruct(abi, name, Object(m), room, ext) == Some(base + Join(parts))
  {
    hide EncodeFields, Encode, Resolve, Join, FieldsOf;
    FieldsLayout(abi, abi.structs[name].fields, m, room, ext, parts);
  }

  /** A value of a variant is packed as the index of the first type of that name and the value. */
  lemma VariantLayout(abi: Abi, t: string, u: string, v: Value, k: nat, room: nat, ext: bool)
    requires var r := Resolve(abi, t);
             && room > 0 && !IsBuiltin(Fundamental(r)) && !IsArray(r) && r in abi.variants && k < |abi.variants[r]|
             && abi.variants[r][k] == u && forall i :: 0 <= i < k ==> abi.variants[r][i] != u
    ensures var b := Encode(abi, u, v, room - 1, ext);
            Encode(abi, t, List([Text(u), v]), room, ext) == if b.None? then None else Some(PackSize(k) + b.value)
  {
    hide PackSize, IsBuiltin, IsArray, Fundamental, Resolve;
    FirstIndex(abi.variants[Resolve(abi, t)], u, k);
    assert u in abi.variants[Resolve(abi, t)];
  }

  lemma {:induction false} FirstIndex(types: seq<string>, u: string, k: nat)
    requires k < |types| && types[k] == u && forall i :: 0 <= i < k ==> types[i] != u
    ensures u in types && Index(types, u) == k
  {
    if k > 0 {
      FirstIndex(types[1..], u, k - 1);
    }
  }

  // ----- optional values -----

  ghost predicate IsOptionalOf(abi: Abi, t: string, inner: string) {
    var r := Resolve(abi, t);
    IsOptional(r) && !IsArray(r) && inner == Fundamental(r)
  }

  /** The first byte 0 stands for null, and nothing else is read. */
  lemma ReadsNull(abi: Abi, t: string, inner: string, rest: Bytes, room: nat)
    requires IsOptionalOf(abi, t, inner) && room > 0
    ensures Decode(abi, t, [0] + rest, room) == Got(Null, rest) && Decode(abi, t, [], room) == Fail
  {
    hide IsBuiltin, IsArray, IsOptional, Resolve, UnpackOne, DecodeStruct;
    assert ([0] + rest)[1..] == rest;
  }

  /** Any other first byte stands for a value, read back in normal form. */
  lemma ReadsPresent(abi: Abi, t: string, inner: string, v: Value, k: Byte, re: nat, ext: bool, rest: Bytes, room: nat)
    requires WellFormed(abi) && IsOptionalOf(abi, t, inner) && !IsBuiltin(inner) && k != 0 && room > 0
    requires Encode(abi, inner, v, re, ext).Some? && Solid(abi, inner, Normal(abi, inner, v, re), room - 1) && (ext ==> rest == [])
    ensures Decode(abi, t, [k] + Encode(abi, inner, v, re, ext).value + rest, room) == Got(Normal(abi, inner, v, re), rest)
  {
    hide IsBuiltin, IsArray, IsOptional, Resolve, Encode, Solid, Normal, WellFormed, DecodeBuiltin, Fundamental;
    var b := Encode(abi, inner, v, re, ext).value;
    assert ([k] + b + rest)[1..] == b + rest;
    IsReadBack(abi, inner, v, re, ext, rest, room - 1);
  }

  /** A built-in value is present with a first byte of 1; a greater one is refused. */
  lemma ReadsBuiltin(abi: Abi, t: string, inner: string, v: Value, k: Byte, rest: Bytes, room: nat)
    requires IsOptionalOf(abi, t, inner) && IsBuiltin(inner) && PackOne(inner, v).Some? && room > 0
    ensures Decode(abi, t, [1] + PackOne(inner, v).value + rest, room) == Got(v, rest)
    ensures k > 1 ==> Decode(abi, t, [k] + rest, room) == Fail
  {
    hide IsBuiltin, IsArray, IsOptional, Resolve, PackOne, UnpackOne, Fundamental;
    var b := PackOne(inner, v).value;
    assert ([1] + b + rest)[1..] == b + rest;
    UnpackPackedOne(inner, v, rest);
  }

  // ----- what is refused -----

  /** An index that no type of the variant has is refused. */
  lemma IndexIsRefused(abi: Abi, t: string, k: nat, rest: Bytes, room: nat)
    requires var r := Resolve(abi, t);
             && !IsBuiltin(Fundamental(r)) && !IsArray(r) && !IsOptional(r) && r in abi.variants && |abi.variants[r]| <= k < LIMIT
    ensures Decode(abi, t, PackSize(k) + rest, room) == Fail
  {
    hide PackSize, UnpackSize, IsBuiltin, IsArray, IsOptional, Fundamental, Resolve;
    UnpackPackedSize(k, rest);
  }

  /** Null in an array is refused. */
  lemma NullIsRefused(abi: Abi, t: string, inner: string, n: nat, rest: Bytes, room: nat)
    requires var r := Resolve(abi, t);
             !IsBuiltin(Fundamental(r)) && IsArray(r) && IsOptionalOf(abi, Fundamental(r), inner) && 0 < n < LIMIT
    ensures Decode(abi, t, PackSize(n) + ([0] + rest), room) == Fail
  {
    hide PackSize, UnpackSize, IsBuiltin, IsArray, IsOptional, Fundamental, Resolve, IsOptionalOf;
    UnpackPackedSize(n, [0] + rest);
    if room > 0 {
      NullItemIsRefused(abi, Fundamental(Resolve(abi, t)), inner, n, rest, room - 1);
    }
  }

  lemma NullItemIsRefused(abi: Abi, t: string, inner: string, n: nat, rest: Bytes, room: nat)
    requires IsOptionalOf(abi, t, inner) && n > 0
    ensures DecodeItems(abi, t, n, [0] + rest, room) == Fail
  {
    hide IsOptionalOf, Resolve;
    if room > 0 {
      ReadsNull(abi, t, inner, rest, room);
    }
  }
}
