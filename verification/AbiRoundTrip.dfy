/** Values that were packed are read back as they were, exactly when nothing in them is of the
    kind reading refuses; and giving the fields of a struct by position packs the same bytes as
    naming them. */
module AbiRoundTrip {
  import opened Options
  import opened Primitives
  import opened Abi

  // ----- well-formed descriptions -----

  ghost function OwnNames(fields: seq<Field>): set<string> {
    set i | 0 <= i < |fields| :: fields[i].name
  }

  /** The names of the fields of a struct and its bases, up to some height. */
  ghost function Names(abi: Abi, name: string, n: nat): set<string>
    decreases n
  {
    if n == 0 || name !in abi.structs then {}
    else
      var st := abi.structs[name];
      OwnNames(st.fields) + (if st.base == "" then {} else Names(abi, Resolve(abi, st.base), n - 1))
  }

  ghost predicate Distinct(fields: seq<Field>) {
    forall i, j :: 0 <= i < j < |fields| ==> fields[i].name != fields[j].name
  }

  /** Extensions come after all other fields. */
  ghost predicate ExtensionsLast(fields: seq<Field>) {
    forall i, j :: 0 <= i < j < |fields| && IsExtension(fields[i].ty) ==> IsExtension(fields[j].ty)
  }

  ghost predicate StructOk(abi: Abi, name: string)
    requires name in abi.structs
  {
    var st := abi.structs[name];
    && !IsArray(name) && !IsOptional(name) && !IsBuiltin(name) && name !in abi.variants
    && Distinct(st.fields) && ExtensionsLast(st.fields)
    && (st.base != "" ==> Resolve(abi, st.base) in abi.structs &&
                          forall n: nat :: OwnNames(st.fields) !! Names(abi, Resolve(abi, st.base), n))
  }

  /** Names of structs and variants are plain and used for nothing else, bases are structs, no field name occurs
      twice, and extensions come last. */
  ghost predicate WellFormed(abi: Abi) {
    && (forall name :: name in abi.structs ==> StructOk(abi, name))
    && (forall name :: name in abi.variants ==> VariantOk(abi, name))
  }

  ghost predicate VariantOk(abi: Abi, name: string)
    requires name in abi.variants
  {
    !IsArray(name) && !IsOptional(name) && !IsBuiltin(name) && |abi.variants[name]| <= LIMIT
  }

  // ----- what reading produces -----

  /** A value as reading produces it with the given room: no array holds null, no struct is
      empty, no size needs more than 32 bits, and the nesting fits. */
  ghost predicate Solid(abi: Abi, t: string, v: Value, room: nat)
    decreases room, 0
  {
    && room > 0
    && var r := Resolve(abi, t);
       if IsBuiltin(Fundamental(r)) then IsArray(r) && v.List? ==> |v.items| < LIMIT
       else if IsArray(r) then v.List? && |v.items| < LIMIT && SolidItems(abi, Fundamental(r), v.items, room - 1)
       else if IsOptional(r) then v.Null? || Solid(abi, Fundamental(r), v, room - 1)
       else if r in abi.variants then
         v.List? && |v.items| == 2 && v.items[0].Text? && v.items[0].s in abi.variants[r] &&
         Solid(abi, v.items[0].s, v.items[1], room - 1)
       else v.Object? && v.fields != map[] && SolidStruct(abi, r, v.fields, room - 1)
  }

  ghost predicate SolidItems(abi: Abi, t: string, vs: seq<Value>, room: nat)
    decreases room, 1
  {
    forall i :: 0 <= i < |vs| ==> !vs[i].Null? && Solid(abi, t, vs[i], room)
  }

  ghost predicate SolidStruct(abi: Abi, name: string, m: map<string, Value>, room: nat)
    decreases room, 3
  {
    && room > 0 && name in abi.structs
    && (abi.structs[name].base != "" ==> SolidStruct(abi, Resolve(abi, abi.structs[name].base), m, room - 1))
    && SolidFields(abi, abi.structs[name].fields, m, room - 1)
  }

  ghost predicate SolidFields(abi: Abi, fields: seq<Field>, m: map<string, Value>, room: nat)
    decreases room, 2
  {
    forall i :: 0 <= i < |fields| ==> SolidField(abi, fields[i], m, room)
  }

  ghost predicate SolidField(abi: Abi, f: Field, m: map<string, Value>, room: nat)
    decreases room, 1
  {
    f.name in m ==> Solid(abi, Plain(f.ty), m[f.name], room)
  }

  /** Two objects give the same values to some names. */
  ghost predicate Agree(m: map<string, Value>, m': map<string, Value>, names: set<string>) {
    forall x :: x in names ==> (x in m <==> x in m') && (x in m ==> m[x] == m'[x])
  }

  lemma {:induction false} SolidStructAgrees(abi: Abi, name: string, m: map<string, Value>, m': map<string, Value>, room: nat)
    requires Agree(m, m', Names(abi, name, room)) && SolidStruct(abi, name, m, room)
    ensures SolidStruct(abi, name, m', room)
    decreases room
  {
    hide SolidFields;
    var st := abi.structs[name];
    SolidFieldsAgree(abi, st.fields, m, m', room - 1);
    if st.base != "" {
      SolidStructAgrees(abi, Resolve(abi, st.base), m, m', room - 1);
    }
  }

  // ----- everything read is solid -----

  lemma DecodedBuiltinIsSolid(r: string, s: Bytes)
    requires IsBuiltin(Fundamental(r)) && DecodeBuiltin(r, s).Got?
    ensures var v := DecodeBuiltin(r, s).value; IsArray(r) && v.List? ==> |v.items| < LIMIT
  {
    if IsArray(r) {
      UnpackedManyCount(Fundamental(r), UnpackSize(s).value, UnpackSize(s).rest);
    }
  }

  lemma {:induction false} DecodedIsSolid(abi: Abi, t: string, s: Bytes, room: nat)
    requires WellFormed(abi) && Decode(abi, t, s, room).Got?
    ensures Solid(abi, t, Decode(abi, t, s, room).value, room)
    decreases room, 0, 0
  {
    hide DecodeBuiltin, DecodeItems, DecodeStruct, UnpackSize, IsBuiltin, EndsWith, Resolve, SolidItems, SolidStruct, WellFormed;
    var r := Resolve(abi, t);
    if IsBuiltin(Fundamental(r)) {
      DecodedBuiltinIsSolid(r, s);
    } else if IsArray(r) {
      SizeFits(s);
      DecodedItemsAreSolid(abi, Fundamental(r), UnpackSize(s).value, UnpackSize(s).rest, room - 1);
    } else if IsOptional(r) {
      if s[0] != 0 {
        DecodedIsSolid(abi, Fundamental(r), s[1..], room - 1);
      }
    } else if r in abi.variants {
      DecodedIsSolid(abi, abi.variants[r][UnpackSize(s).value], UnpackSize(s).rest, room - 1);
    } else {
      DecodedStructIsSolid(abi, r, s, room - 1);
    }
  }

  lemma SizeFits(s: Bytes)
    ensures UnpackSize(s).Got? ==> UnpackSize(s).value < LIMIT
  {
  }

  lemma {:induction false} DecodedItemsAreSolid(abi: Abi, t: string, n: nat, s: Bytes, room: nat)
    requires WellFormed(abi) && DecodeItems(abi, t, n, s, room).Got?
    ensures var vs := DecodeItems(abi, t, n, s, room).value; |vs| == n && SolidItems(abi, t, vs, room)
    decreases room, 1, n
  {
    hide Decode, Solid, WellFormed;
    if n > 0 {
      var first := Decode(abi, t, s, room);
      DecodedIsSolid(abi, t, s, room);
      DecodedItemsAreSolid(abi, t, n - 1, first.rest, room);
    }
  }

  lemma {:induction false} DecodedStructIsSolid(abi: Abi, name: string, s: Bytes, room: nat)
    requires WellFormed(abi) && DecodeStruct(abi, name, s, room).Got?
    ensures var m := DecodeStruct(abi, name, s, room).value;
            SolidStruct(abi, name, m, room) && m.Keys <= Names(abi, name, room)
    decreases room, 2, 0
  {
    hide DecodeFields, SolidFields, WellFormed, Resolve, OwnNames, Distinct, Agree;
    var st := abi.structs[name];
    var m := DecodeStruct(abi, name, s, room).value;
    NamesAreDistinct(abi, name, room - 1);
    if st.base == "" {
      DecodedFieldsAreSolid(abi, st.fields, s, room - 1);
      assert m == DecodeFields(abi, st.fields, s, room - 1).value;
    } else {
      var b := Resolve(abi, st.base);
      var base := DecodeStruct(abi, b, s, room - 1);
      DecodedStructIsSolid(abi, b, s, room - 1);
      DecodedFieldsAreSolid(abi, st.fields, base.rest, room - 1);
      var own := DecodeFields(abi, st.fields, base.rest, room - 1).value;
      MergeAgrees(base.value, own, Names(abi, b, room - 1), OwnNames(st.fields));
      SolidStructAgrees(abi, b, base.value, m, room - 1);
      SolidFieldsAgree(abi, st.fields, own, m, room - 1);
    }
  }

  lemma NamesAreDistinct(abi: Abi, name: string, n: nat)
    requires WellFormed(abi) && name in abi.structs
    ensures var st := abi.structs[name];
            && Distinct(st.fields) && ExtensionsLast(st.fields)
            && (st.base != "" ==> Resolve(abi, st.base) in abi.structs &&
                                  OwnNames(st.fields) !! Names(abi, Resolve(abi, st.base), n))
  {
    assert StructOk(abi, name);
  }

  lemma MergeAgrees(base: map<string, Value>, own: map<string, Value>, names: set<string>, ownNames: set<string>)
    requires base.Keys <= names && own.Keys <= ownNames && names !! ownNames
    ensures Agree(base, base + own, names) && Agree(own, base + own, ownNames)
  {
  }

  lemma SolidFieldsAgree(abi: Abi, fields: seq<Field>, m: map<string, Value>, m': map<string, Value>, room: nat)
    requires SolidFields(abi, fields, m, room) && Agree(m, m', OwnNames(fields))
    ensures SolidFields(abi, fields, m', room)
  {
    hide Solid, Plain;
    forall i | 0 <= i < |fields| ensures SolidField(abi, fields[i], m', room) {
      assert SolidField(abi, fields[i], m, room);
      assert fields[i].name in OwnNames(fields);
    }
  }

  lemma DistinctRest(fields: seq<Field>)
    requires Distinct(fields) && fields != []
    ensures Distinct(fields[1..]) && fields[0].name !in OwnNames(fields[1..])
    ensures OwnNames(fields) == {fields[0].name} + OwnNames(fields[1..])
  {
    forall i | 0 <= i < |fields| ensures fields[i].name in {fields[0].name} + OwnNames(fields[1..]) {
      if i > 0 {
        assert fields[i] == fields[1..][i - 1];
      }
    }
    forall i | 0 <= i < |fields[1..]| ensures fields[1..][i].name in OwnNames(fields) {
      assert fields[1..][i] == fields[i + 1];
    }
    assert fields[0].name in OwnNames(fields);
  }

  lemma {:induction false} DecodedFieldsAreSolid(abi: Abi, fields: seq<Field>, s: Bytes, room: nat)
    requires WellFormed(abi) && Distinct(fields) && DecodeFields(abi, fields, s, room).Got?
    ensures var m := DecodeFields(abi, fields, s, room).value;
            SolidFields(abi, fields, m, room) && m.Keys <= OwnNames(fields)
    decreases room, 1, |fields|
  {
    hide Decode, Solid, WellFormed, OwnNames, Distinct, IsExtension;
    if fields != [] {
      DistinctRest(fields);
      var rest := fields[1..];
      if s == [] {
        DecodedFieldsAreSolid(abi, rest, s, room);
        OneMoreSolid(abi, fields, DecodeFields(abi, rest, s, room).value, None, room);
      } else {
        var first := Decode(abi, Plain(fields[0].ty), s, room);
        DecodedIsSolid(abi, Plain(fields[0].ty), s, room);
        DecodedFieldsAreSolid(abi, rest, first.rest, room);
        OneMoreSolid(abi, fields, DecodeFields(abi, rest, first.rest, room).value, Some(first.value), room);
      }
    }
  }

  /** The entry of a field, if it has one, put before those of the others. */
  ghost function With(name: string, v: Option<Value>, m: map<string, Value>): map<string, Value> {
    (if v.Some? then map[name := v.value] else map[]) + m
  }

  lemma NameOf(fields: seq<Field>, i: nat)
    requires i < |fields|
    ensures fields[i].name in OwnNames(fields)
  {
  }

  lemma OneMoreSolid(abi: Abi, fields: seq<Field>, m: map<string, Value>, v: Option<Value>, room: nat)
    requires fields != [] && fields[0].name !in OwnNames(fields[1..]) && m.Keys <= OwnNames(fields[1..])
    requires SolidFields(abi, fields[1..], m, room) && (v.Some? ==> Solid(abi, Plain(fields[0].ty), v.value, room))
    ensures SolidFields(abi, fields, With(fields[0].name, v, m), room)
    ensures v.None? ==> With(fields[0].name, v, m) == m
  {
    hide Solid, Plain, OwnNames;
    var rest, m' := fields[1..], With(fields[0].name, v, m);
    assert SolidField(abi, fields[0], m', room);
    forall i | 0 < i < |fields| ensures SolidField(abi, fields[i], m', room) {
      assert fields[i] == rest[i - 1];
      assert SolidField(abi, rest[i - 1], m, room);
      NameOf(rest, i - 1);
    }
  }

  // ----- everything solid is read back -----

  lemma BuiltinIsReadBack(r: string, v: Value, rest: Bytes)
    requires IsBuiltin(Fundamental(r)) && EncodeBuiltin(r, v).Some? && (IsArray(r) && v.List? ==> |v.items| < LIMIT)
    ensures DecodeBuiltin(r, EncodeBuiltin(r, v).value + rest) == Got(v, rest)
  {
    hide PackOne, UnpackOne, PackMany, UnpackMany, UnpackSize, IsBuiltin;
    var f, b := Fundamental(r), EncodeBuiltin(r, v).value;
    if IsArray(r) {
      var items := PackMany(f, v.items).value;
      assert b + rest == PackSize(|v.items|) + (items + rest);
      UnpackPackedSize(|v.items|, items + rest);
      UnpackPackedMany(f, v.items, rest);
    } else if IsOptional(r) {
      assert (b + rest)[1..] == b[1..] + rest;
      if !v.Null? {
        assert b[1..] == PackOne(f, v).value;
        UnpackPackedOne(f, v, rest);
      } else {
        assert b[1..] + rest == rest;
      }
    } else {
      UnpackPackedOne(f, v, rest);
    }
  }

  /** What packing does with the name of a struct. */
  lemma EncodeOfStruct(abi: Abi, name: string, v: Value, room: nat, ext: bool)
    requires WellFormed(abi) && name in abi.structs && Resolve(abi, name) == name
    ensures Encode(abi, name, v, room, ext) == if room == 0 then None else EncodeStruct(abi, name, v, room - 1, ext)
  {
    hide EncodeStruct, Resolve, IsBuiltin, EndsWith;
    assert StructOk(abi, name);
  }

  lemma {:induction false} FieldsAreNamed(abi: Abi, fields: seq<Field>, m: map<string, Value>, room: nat)
    ensures NormalFields(abi, fields, m, room).Keys <= OwnNames(fields)
    decreases |fields|
  {
    hide Normal, OwnNames;
    if fields != [] {
      FieldsAreNamed(abi, fields[1..], m, room);
      NamesOfRest(fields);
    }
  }

  lemma {:induction false} PositionsAreNamed(abi: Abi, fields: seq<Field>, vs: seq<Value>, room: nat)
    ensures NormalPositional(abi, fields, vs, room).Keys <= OwnNames(fields)
    decreases |fields|
  {
    hide Normal, OwnNames;
    if fields != [] && vs != [] {
      PositionsAreNamed(abi, fields[1..], vs[1..], room);
      NamesOfRest(fields);
    }
  }

  lemma NamesOfRest(fields: seq<Field>)
    requires fields != []
    ensures OwnNames(fields[1..]) <= OwnNames(fields) && fields[0].name in OwnNames(fields)
  {
    forall i | 0 <= i < |fields[1..]| ensures fields[1..][i].name in OwnNames(fields) {
      assert fields[1..][i] == fields[i + 1];
    }
  }

  lemma {:induction false} StructIsNamed(abi: Abi, name: string, v: Value, room: nat)
    ensures NormalStruct(abi, name, v, room).Keys <= Names(abi, name, room + 1)
    decreases room
  {
    hide NormalFields, NormalPositional, OwnNames, Resolve;
    if name in abi.structs {
      var st := abi.structs[name];
      if v.Object? {
        FieldsAreNamed(abi, st.fields, v.fields, room);
        if st.base != "" && room > 0 {
          StructIsNamed(abi, Resolve(abi, st.base), v, room - 1);
        }
      } else if v.List? {
        PositionsAreNamed(abi, st.fields, v.items, room);
      }
    }
  }

  /** A packed value that reading would accept is read back in normal form, whatever follows;
      where extensions were left out nothing may follow. */
  lemma {:induction false} IsReadBack(abi: Abi, t: string, v: Value, re: nat, ext: bool, rest: Bytes, rd: nat)
    requires WellFormed(abi) && Encode(abi, t, v, re, ext).Some? && Solid(abi, t, Normal(abi, t, v, re), rd)
    requires ext ==> rest == []
    ensures Encode(abi, t, v, re, ext).value != []
    ensures Decode(abi, t, Encode(abi, t, v, re, ext).value + rest, rd) == Got(Normal(abi, t, v, re), rest)
    decreases re, 0, 0
  {
    hide EncodeBuiltin, DecodeBuiltin, EncodeItems, DecodeItems, EncodeStruct, DecodeStruct, UnpackSize, PackSize, IsBuiltin, EndsWith,
         Resolve, NormalItems, NormalStruct, SolidItems, SolidStruct, WellFormed, Fundamental;
    var r := Resolve(abi, t);
    var b := Encode(abi, t, v, re, ext).value;
    if IsBuiltin(Fundamental(r)) {
      BuiltinIsReadBack(r, v, rest);
    } else if IsArray(r) {
      var items := EncodeItems(abi, Fundamental(r), v.items, re - 1).value;
      assert b + rest == PackSize(|v.items|) + (items + rest);
      UnpackPackedSize(|v.items|, items + rest);
      ItemsAreReadBack(abi, Fundamental(r), v.items, re - 1, rest, rd - 1);
    } else if r in abi.variants {
      VariantIsPlain(abi, r);
      var u := v.items[0].s;
      var k := Index(abi.variants[r], u);
      var inner := Encode(abi, u, v.items[1], re - 1, ext).value;
      assert b + rest == PackSize(k) + (inner + rest);
      UnpackPackedSize(k, inner + rest);
      IsReadBack(abi, u, v.items[1], re - 1, ext, rest, rd - 1);
    } else {
      StructIsPlain(abi, r);
      StructIsReadBack(abi, r, v, re - 1, ext, rest, rd - 1);
    }
  }

  lemma VariantIsPlain(abi: Abi, r: string)
    requires WellFormed(abi) && r in abi.variants
    ensures !IsArray(r) && !IsOptional(r) && |abi.variants[r]| <= LIMIT
  {
    assert VariantOk(abi, r);
  }

  lemma StructIsPlain(abi: Abi, r: string)
    requires WellFormed(abi) && r in abi.structs
    ensures !IsArray(r) && !IsOptional(r) && r !in abi.variants && !IsBuiltin(r)
  {
    assert StructOk(abi, r);
  }

  lemma {:induction false} ItemsAreReadBack(abi: Abi, t: string, vs: seq<Value>, re: nat, rest: Bytes, rd: nat)
    requires WellFormed(abi) && EncodeItems(abi, t, vs, re).Some? && SolidItems(abi, t, NormalItems(abi, t, vs, re), rd)
    ensures DecodeItems(abi, t, |vs|, EncodeItems(abi, t, vs, re).value + rest, rd) == Got(NormalItems(abi, t, vs, re), rest)
    decreases re, 1, |vs|
  {
    hide Encode, Decode, Normal, Solid, WellFormed;
    if vs == [] {
      assert EncodeItems(abi, t, vs, re).value + rest == rest;
    } else {
      var ns := NormalItems(abi, t, vs, re);
      assert ns[0] == Normal(abi, t, vs[0], re) && ns[1..] == NormalItems(abi, t, vs[1..], re);
      var first, others := Encode(abi, t, vs[0], re, false).value, EncodeItems(abi, t, vs[1..], re).value;
      assert EncodeItems(abi, t, vs, re).value + rest == first + (others + rest);
      IsReadBack(abi, t, vs[0], re, false, others + rest, rd);
      ItemsAreReadBack(abi, t, vs[1..], re, rest, rd);
    }
  }

  lemma {:induction false} StructIsReadBack(abi: Abi, name: string, v: Value, re: nat, ext: bool, rest: Bytes, rd: nat)
    requires WellFormed(abi) && name in abi.structs && EncodeStruct(abi, name, v, re, ext).Some?
    requires SolidStruct(abi, name, NormalStruct(abi, name, v, re), rd) && (ext ==> rest == [])
    ensures NormalStruct(abi, name, v, re) != map[] ==> EncodeStruct(abi, name, v, re, ext).value != []
    ensures DecodeStruct(abi, name, EncodeStruct(abi, name, v, re, ext).value + rest, rd) == Got(NormalStruct(abi, name, v, re), rest)
    decreases re, 3, 0
  {
    hide Encode, EncodeFields, DecodeFields, EncodePositional, SolidFields, NormalFields, NormalPositional, WellFormed, Resolve,
         OwnNames, Names, Agree, Distinct, ExtensionsLast;
    var st := abi.structs[name];
    NamesAreDistinct(abi, name, 0);
    if v.List? {
      PositionsAreReadBack(abi, st.fields, v.items, re, ext, rest, rd - 1);
      assert map[] + NormalPositional(abi, st.fields, v.items, re) == NormalPositional(abi, st.fields, v.items, re);
    } else if st.base == "" {
      var own := NormalFields(abi, st.fields, v.fields, re);
      assert map[] + own == own && NormalStruct(abi, name, v, re) == own;
      FieldsAreReadBack(abi, st.fields, v.fields, re, ext, false, rest, rd - 1);
      assert [] + EncodeFields(abi, st.fields, v.fields, re, ext, false).value == EncodeFields(abi, st.fields, v.fields, re, ext, false).value;
    } else {
      DerivedIsReadBack(abi, name, v, re, ext, rest, rd);
    }
  }

  /** The parts of a struct with a base are solid by themselves. */
  lemma PartsAreSolid(abi: Abi, name: string, v: Value, re: nat, rd: nat)
    requires WellFormed(abi) && name in abi.structs && v.Object? && abi.structs[name].base != "" && re > 0 && rd > 0
    requires SolidStruct(abi, name, NormalStruct(abi, name, v, re), rd)
    ensures var st := abi.structs[name];
            var b := Resolve(abi, st.base);
            && SolidStruct(abi, b, NormalStruct(abi, b, v, re - 1), rd - 1)
            && SolidFields(abi, st.fields, NormalFields(abi, st.fields, v.fields, re), rd - 1)
  {
    hide NormalFields, SolidFields, WellFormed, Resolve, OwnNames, Names, Distinct, ExtensionsLast;
    var st := abi.structs[name];
    var b := Resolve(abi, st.base);
    var base, own := NormalStruct(abi, b, v, re - 1), NormalFields(abi, st.fields, v.fields, re);
    var m := NormalStruct(abi, name, v, re);
    assert m == base + own;
    StructIsNamed(abi, b, v, re - 1);
    FieldsAreNamed(abi, st.fields, v.fields, re);
    NamesAreDistinct(abi, name, re);
    NamesAreDistinct(abi, name, rd - 1);
    MergedAgree(base, own, m, Names(abi, b, re), OwnNames(st.fields), Names(abi, b, rd - 1));
    SolidStructAgrees(abi, b, m, base, rd - 1);
    SolidFieldsAgree(abi, st.fields, m, own, rd - 1);
  }

  lemma MergedAgree(base: map<string, Value>, own: map<string, Value>, m: map<string, Value>, names: set<string>,
                    ownNames: set<string>, names': set<string>)
    requires m == base + own && base.Keys <= names && own.Keys <= ownNames && names !! ownNames && names' !! ownNames
    ensures Agree(m, base, names') && Agree(m, own, ownNames)
  {
  }

  lemma {:induction false} DerivedIsReadBack(abi: Abi, name: string, v: Value, re: nat, ext: bool, rest: Bytes, rd: nat)
    requires WellFormed(abi) && name in abi.structs && v.Object? && abi.structs[name].base != ""
    requires EncodeStruct(abi, name, v, re, ext).Some?
    requires SolidStruct(abi, name, NormalStruct(abi, name, v, re), rd) && (ext ==> rest == [])
    ensures NormalStruct(abi, name, v, re) != map[] ==> EncodeStruct(abi, name, v, re, ext).value != []
    ensures DecodeStruct(abi, name, EncodeStruct(abi, name, v, re, ext).value + rest, rd) == Got(NormalStruct(abi, name, v, re), rest)
    decreases re, 2, 0
  {
    hide Encode, EncodeFields, DecodeFields, EncodePositional, SolidFields, NormalFields, NormalPositional, WellFormed, Resolve,
         OwnNames, Names, Agree, Distinct, ExtensionsLast;
    var st := abi.structs[name];
    var b := Resolve(abi, st.base);
    NamesAreDistinct(abi, name, 0);
    ResolveIsIdempotent(abi, st.base);
    EncodeOfStruct(abi, b, v, re, false);
    PartsAreSolid(abi, name, v, re, rd);
    var encBase := EncodeStruct(abi, b, v, re - 1, false).value;
    var encOwn := EncodeFields(abi, st.fields, v.fields, re, ext, false).value;
    assert EncodeStruct(abi, name, v, re, ext).value + rest == encBase + (encOwn + rest);
    StructIsReadBack(abi, b, v, re - 1, false, encOwn + rest, rd - 1);
    FieldsAreReadBack(abi, st.fields, v.fields, re, ext, false, rest, rd - 1);
  }

  lemma {:induction false} FieldsAreReadBack(abi: Abi, fields: seq<Field>, m: map<string, Value>, re: nat, ext: bool, omitted: bool,
                                             rest: Bytes, rd: nat)
    requires WellFormed(abi) && Distinct(fields) && EncodeFields(abi, fields, m, re, ext, omitted).Some?
    requires SolidFields(abi, fields, NormalFields(abi, fields, m, re), rd) && (ext ==> rest == [])
    ensures var b, own := EncodeFields(abi, fields, m, re, ext, omitted).value, NormalFields(abi, fields, m, re);
            && (own != map[] ==> b != []) && (omitted ==> b == [] && own == map[])
            && DecodeFields(abi, fields, b + rest, rd) == Got(own, rest)
    decreases re, 1, |fields|
  {
    hide Encode, Decode, Normal, Solid, WellFormed, OwnNames, Distinct, IsExtension, Plain;
    var b := EncodeFields(abi, fields, m, re, ext, omitted).value;
    if fields == [] {
      assert b + rest == rest;
    } else {
      var f, others := fields[0], fields[1..];
      DistinctRest(fields);
      FieldsAreNamed(abi, others, m, re);
      RestIsSolid(abi, fields, m, re, rd);
      if f.name in m {
        var last := ext && |fields| == 1;
        var encFirst := Encode(abi, Plain(f.ty), m[f.name], re, last).value;
        var encOthers := EncodeFields(abi, others, m, re, ext, false).value;
        assert b + rest == encFirst + (encOthers + rest);
        IsReadBack(abi, Plain(f.ty), m[f.name], re, last, encOthers + rest, rd);
        FieldsAreReadBack(abi, others, m, re, ext, false, rest, rd);
      } else {
        FieldsAreReadBack(abi, others, m, re, ext, true, rest, rd);
        assert map[] + NormalFields(abi, others, m, re) == NormalFields(abi, others, m, re);
      }
    }
  }

  lemma RestIsSolid(abi: Abi, fields: seq<Field>, m: map<string, Value>, re: nat, rd: nat)
    requires fields != [] && fields[0].name !in OwnNames(fields[1..])
    requires NormalFields(abi, fields[1..], m, re).Keys <= OwnNames(fields[1..])
    requires SolidFields(abi, fields, NormalFields(abi, fields, m, re), rd)
    ensures SolidFields(abi, fields[1..], NormalFields(abi, fields[1..], m, re), rd)
    ensures var f := fields[0]; f.name in m ==> Solid(abi, Plain(f.ty), Normal(abi, Plain(f.ty), m[f.name], re), rd)
  {
    hide Solid, Normal, Plain, OwnNames;
    var f, rest := fields[0], fields[1..];
    var own, own' := NormalFields(abi, fields, m, re), NormalFields(abi, rest, m, re);
    assert SolidField(abi, f, own, rd);
    forall i | 0 <= i < |rest| ensures SolidField(abi, rest[i], own', rd) {
      assert rest[i] == fields[i + 1] && SolidField(abi, fields[i + 1], own, rd);
      NameOf(rest, i);
    }
  }

  lemma {:induction false} SkippedAtEnd(abi: Abi, fields: seq<Field>, rd: nat)
    requires forall i :: 0 <= i < |fields| ==> IsExtension(fields[i].ty)
    ensures DecodeFields(abi, fields, [], rd) == Got(map[], [])
    decreases |fields|
  {
    hide Decode, IsExtension;
    if fields != [] {
      SkippedAtEnd(abi, fields[1..], rd);
    }
  }

  lemma {:induction false} PositionsAreReadBack(abi: Abi, fields: seq<Field>, vs: seq<Value>, re: nat, ext: bool, rest: Bytes, rd: nat)
    requires WellFormed(abi) && Distinct(fields) && ExtensionsLast(fields) && EncodePositional(abi, fields, vs, re, ext).Some?
    requires SolidFields(abi, fields, NormalPositional(abi, fields, vs, re), rd) && (ext ==> rest == [])
    ensures var b, own := EncodePositional(abi, fields, vs, re, ext).value, NormalPositional(abi, fields, vs, re);
            (own != map[] ==> b != []) && DecodeFields(abi, fields, b + rest, rd) == Got(own, rest)
    decreases re, 1, |fields|
  {
    hide Encode, Decode, Normal, Solid, WellFormed, OwnNames, Distinct, IsExtension, Plain;
    var b := EncodePositional(abi, fields, vs, re, ext).value;
    if fields == [] {
      assert b + rest == rest;
    } else if vs == [] {
      SkippedAtEnd(abi, fields, rd);
      assert b + rest == [];
    } else {
      var f, others := fields[0], fields[1..];
      DistinctRest(fields);
      PositionsAreNamed(abi, others, vs[1..], re);
      RestOfPositionsIsSolid(abi, fields, vs, re, rd);
      var last := ext && |fields| == 1;
      var encFirst := Encode(abi, Plain(f.ty), vs[0], re, last).value;
      var encOthers := EncodePositional(abi, others, vs[1..], re, ext).value;
      assert b + rest == encFirst + (encOthers + rest);
      IsReadBack(abi, Plain(f.ty), vs[0], re, last, encOthers + rest, rd);
      PositionsAreReadBack(abi, others, vs[1..], re, ext, rest, rd);
    }
  }

  lemma RestOfPositionsIsSolid(abi: Abi, fields: seq<Field>, vs: seq<Value>, re: nat, rd: nat)
    requires fields != [] && vs != [] && fields[0].name !in OwnNames(fields[1..])
    requires NormalPositional(abi, fields[1..], vs[1..], re).Keys <= OwnNames(fields[1..])
    requires SolidFields(abi, fields, NormalPositional(abi, fields, vs, re), rd)
    ensures SolidFields(abi, fields[1..], NormalPositional(abi, fields[1..], vs[1..], re), rd)
    ensures var f := fields[0]; Solid(abi, Plain(f.ty), Normal(abi, Plain(f.ty), vs[0], re), rd)
  {
    hide Solid, Normal, Plain, OwnNames;
    var f, rest := fields[0], fields[1..];
    var own, own' := NormalPositional(abi, fields, vs, re), NormalPositional(abi, rest, vs[1..], re);
    assert SolidField(abi, f, own, rd);
    forall i | 0 <= i < |rest| ensures SolidField(abi, rest[i], own', rd) {
      assert rest[i] == fields[i + 1] && SolidField(abi, fields[i + 1], own, rd);
      NameOf(rest, i);
    }
  }

  // ----- the result -----

  /** The deepest nesting of scopes. */
  const ROOM: nat := 31

  /** A value that was packed is read back in its normal form exactly when that form is one
      reading can produce. */
  lemma RoundTripIff(abi: Abi, t: string, v: Value)
    requires WellFormed(abi) && Encode(abi, t, v, ROOM, true).Some?
    ensures var b, n := Encode(abi, t, v, ROOM, true).value, Normal(abi, t, v, ROOM);
            Decode(abi, t, b, ROOM) == Got(n, []) <==> Solid(abi, t, n, ROOM)
  {
    hide Encode, Decode, Normal, Solid, WellFormed;
    var b, n := Encode(abi, t, v, ROOM, true).value, Normal(abi, t, v, ROOM);
    if Decode(abi, t, b, ROOM) == Got(n, []) {
      DecodedIsSolid(abi, t, b, ROOM);
    }
    if Solid(abi, t, n, ROOM) {
      IsReadBack(abi, t, v, ROOM, true, [], ROOM);
      assert b + [] == b;
    }
  }

  // ----- named and positional fields -----

  const HOLLOW := Abi(map[], map["s" := Struct("", [])], map[])

  lemma PlainName()
    ensures Fundamental("s") == "s" && !IsArray("s") && !IsBuiltin("s") && !IsOptional("s")
  {
  }

  lemma HollowIsWellFormed()
    ensures WellFormed(HOLLOW) && Resolve(HOLLOW, "s") == "s"
  {
    hide IsArray, IsOptional, IsBuiltin, Names;
    PlainName();
    assert StructOk(HOLLOW, "s") by {
      assert HOLLOW.structs["s"] == Struct("", []);
    }
  }

  lemma HollowPacks(room: nat)
    ensures EncodeStruct(HOLLOW, "s", Object(map[]), room, true) == Some([])
  {
    var st := HOLLOW.structs["s"];
    assert st == Struct("", []);
    var own := EncodeFields(HOLLOW, st.fields, map[], room, true, false);
    assert own == Some([]);
    assert [] + own.value == [];
  }

  lemma HollowReads(room: nat)
    requires room > 0
    ensures DecodeStruct(HOLLOW, "s", [], room) == Got(map[], [])
  {
    var st := HOLLOW.structs["s"];
    assert st == Struct("", []);
    var own := DecodeFields(HOLLOW, st.fields, [], room - 1);
    assert own == Got(map[], []);
    assert map[] + own.value == map[];
  }

  /** A value may be packed that is not read back: a struct without fields packs to nothing, and
      reading refuses it. */
  lemma PackedMayBeUnreadable()
    ensures WellFormed(HOLLOW) && Encode(HOLLOW, "s", Object(map[]), ROOM, true) == Some([])
    ensures Decode(HOLLOW, "s", [], ROOM) == Fail && !Solid(HOLLOW, "s", Normal(HOLLOW, "s", Object(map[]), ROOM), ROOM)
  {
    hide IsBuiltin, IsArray, IsOptional, Resolve, Fundamental, WellFormed, Solid, Normal, EncodeStruct, DecodeStruct;
    PlainName();
    HollowIsWellFormed();
    HollowPacks(ROOM - 1);
    HollowReads(ROOM - 1);
    RoundTripIff(HOLLOW, "s", Object(map[]));
  }

  lemma {:induction false} EncodeFieldsAgree(abi: Abi, fields: seq<Field>, m: map<string, Value>, m': map<string, Value>, room: nat,
                                             ext: bool, omitted: bool)
    requires Agree(m, m', OwnNames(fields))
    ensures EncodeFields(abi, fields, m, room, ext, omitted) == EncodeFields(abi, fields, m', room, ext, omitted)
    decreases |fields|
  {
    hide Encode, IsExtension, Plain, OwnNames;
    if fields != [] {
      NamesOfRest(fields);
      EncodeFieldsAgree(abi, fields[1..], m, m', room, ext, omitted);
      EncodeFieldsAgree(abi, fields[1..], m, m', room, ext, true);
      EncodeFieldsAgree(abi, fields[1..], m, m', room, ext, false);
    }
  }

  lemma {:induction false} EncodeStructAgrees(abi: Abi, name: string, m: map<string, Value>, m': map<string, Value>, room: nat, ext: bool)
    requires WellFormed(abi) && name in abi.structs && Agree(m, m', Names(abi, name, room + 1))
    ensures EncodeStruct(abi, name, Object(m), room, ext) == EncodeStruct(abi, name, Object(m'), room, ext)
    decreases room
  {
    hide Encode, EncodeFields, WellFormed, Resolve, OwnNames;
    var st := abi.structs[name];
    EncodeFieldsAgree(abi, st.fields, m, m', room, ext, false);
    if st.base != "" {
      var b := Resolve(abi, st.base);
      NamesAreDistinct(abi, name, 0);
      ResolveIsIdempotent(abi, st.base);
      EncodeOfStruct(abi, b, Object(m), room, false);
      EncodeOfStruct(abi, b, Object(m'), room, false);
      if room > 0 {
        EncodeStructAgrees(abi, b, m, m', room - 1, false);
      }
    }
  }

  /** A value packs to the same bytes as its normal form: the fields of a struct may be given by
      name, in any order and with others beside them, or by position. */
  lemma {:induction false} NormalPacksTheSame(abi: Abi, t: string, v: Value, room: nat, ext: bool)
    requires WellFormed(abi) && Encode(abi, t, v, room, ext).Some?
    ensures Encode(abi, t, Normal(abi, t, v, room), room, ext) == Encode(abi, t, v, room, ext)
    decreases room, 0, 0
  {
    hide EncodeBuiltin, EncodeItems, EncodeStruct, NormalItems, NormalStruct, PackSize, IsBuiltin, EndsWith, Resolve, WellFormed, Fundamental;
    var r := Resolve(abi, t);
    if IsBuiltin(Fundamental(r)) {
    } else if IsArray(r) {
      NormalItemsPackTheSame(abi, Fundamental(r), v.items, room - 1);
    } else if r in abi.variants {
      NormalPacksTheSame(abi, v.items[0].s, v.items[1], room - 1, ext);
    } else {
      NormalStructPacksTheSame(abi, r, v, room - 1, ext);
    }
  }

  lemma {:induction false} NormalItemsPackTheSame(abi: Abi, t: string, vs: seq<Value>, room: nat)
    requires WellFormed(abi) && EncodeItems(abi, t, vs, room).Some?
    ensures EncodeItems(abi, t, NormalItems(abi, t, vs, room), room) == EncodeItems(abi, t, vs, room)
    decreases room, 1, |vs|
  {
    hide Encode, Normal, WellFormed;
    if vs != [] {
      var ns := NormalItems(abi, t, vs, room);
      assert ns[0] == Normal(abi, t, vs[0], room) && ns[1..] == NormalItems(abi, t, vs[1..], room);
      NormalPacksTheSame(abi, t, vs[0], room, false);
      NormalItemsPackTheSame(abi, t, vs[1..], room);
    }
  }

  lemma {:induction false} NormalStructPacksTheSame(abi: Abi, name: string, v: Value, room: nat, ext: bool)
    requires WellFormed(abi) && name in abi.structs && EncodeStruct(abi, name, v, room, ext).Some?
    ensures EncodeStruct(abi, name, Object(NormalStruct(abi, name, v, room)), room, ext) == EncodeStruct(abi, name, v, room, ext)
    decreases room, 2, 0
  {
    hide Encode, EncodeFields, EncodePositional, NormalFields, NormalPositional, WellFormed, Resolve, OwnNames, Names, Agree,
         Distinct, ExtensionsLast;
    var st := abi.structs[name];
    var m := NormalStruct(abi, name, v, room);
    NamesAreDistinct(abi, name, room);
    if v.List? {
      SameAgrees(m, OwnNames(st.fields));
      PositionsPackTheSame(abi, st.fields, v.items, m, room, ext);
      var b := EncodePositional(abi, st.fields, v.items, room, ext).value;
      assert [] + b == b;
    } else {
      var own := NormalFields(abi, st.fields, v.fields, room);
      FieldsAreNamed(abi, st.fields, v.fields, room);
      if st.base == "" {
        assert m == own;
        SameAgrees(m, OwnNames(st.fields));
      } else {
        var b := Resolve(abi, st.base);
        ResolveIsIdempotent(abi, st.base);
        EncodeOfStruct(abi, b, v, room, false);
        EncodeOfStruct(abi, b, Object(m), room, false);
        var base := NormalStruct(abi, b, v, room - 1);
        StructIsNamed(abi, b, v, room - 1);
        MergedAgree(base, own, m, Names(abi, b, room), OwnNames(st.fields), Names(abi, b, room));
        NormalStructPacksTheSame(abi, b, v, room - 1, false);
        EncodeStructAgrees(abi, b, m, base, room - 1, false);
      }
      NormalFieldsPackTheSame(abi, st.fields, v.fields, m, room, ext, false);
    }
  }

  lemma SameAgrees(m: map<string, Value>, names: set<string>)
    ensures Agree(m, m, names)
  {
  }

  lemma AgreeRest(m: map<string, Value>, own: map<string, Value>, own': map<string, Value>, fields: seq<Field>)
    requires fields != [] && fields[0].name !in OwnNames(fields[1..])
    requires Agree(m, own, OwnNames(fields)) && (own == own' || exists v :: own == map[fields[0].name := v] + own')
    ensures Agree(m, own', OwnNames(fields[1..]))
  {
    hide OwnNames;
    NamesOfRest(fields);
  }

  lemma {:induction false} NormalFieldsPackTheSame(abi: Abi, fields: seq<Field>, vs: map<string, Value>, m: map<string, Value>, room: nat,
                                                   ext: bool, omitted: bool)
    requires WellFormed(abi) && Distinct(fields) && EncodeFields(abi, fields, vs, room, ext, omitted).Some?
    requires Agree(m, NormalFields(abi, fields, vs, room), OwnNames(fields))
    ensures EncodeFields(abi, fields, m, room, ext, omitted) == EncodeFields(abi, fields, vs, room, ext, omitted)
    decreases room, 1, |fields|
  {
    hide Encode, Normal, WellFormed, OwnNames, Distinct, IsExtension, Plain;
    if fields != [] {
      var f := fields[0];
      DistinctRest(fields);
      FieldsAreNamed(abi, fields[1..], vs, room);
      var own, own' := NormalFields(abi, fields, vs, room), NormalFields(abi, fields[1..], vs, room);
      if f.name in vs {
        assert own == map[f.name := Normal(abi, Plain(f.ty), vs[f.name], room)] + own';
        AgreeRest(m, own, own', fields);
        NormalPacksTheSame(abi, Plain(f.ty), vs[f.name], room, ext && |fields| == 1);
        NormalFieldsPackTheSame(abi, fields[1..], vs, m, room, ext, false);
      } else {
        assert own == own';
        AgreeRest(m, own, own', fields);
        NormalFieldsPackTheSame(abi, fields[1..], vs, m, room, ext, true);
      }
    }
  }

  lemma {:induction false} AllOmitted(abi: Abi, fields: seq<Field>, m: map<string, Value>, room: nat, omitted: bool)
    requires forall i :: 0 <= i < |fields| ==> IsExtension(fields[i].ty) && fields[i].name !in m
    ensures EncodeFields(abi, fields, m, room, true, omitted) == Some([])
    decreases |fields|
  {
    hide Encode, IsExtension;
    if fields != [] {
      AllOmitted(abi, fields[1..], m, room, true);
    }
  }

  lemma NamedIsMissing(fields: seq<Field>, m: map<string, Value>)
    requires Agree(m, map[], OwnNames(fields))
    ensures forall i :: 0 <= i < |fields| ==> fields[i].name !in m
  {
    forall i | 0 <= i < |fields| ensures fields[i].name !in m {
      NameOf(fields, i);
    }
  }

  lemma {:induction false} PositionsPackTheSame(abi: Abi, fields: seq<Field>, vs: seq<Value>, m: map<string, Value>, room: nat, ext: bool)
    requires WellFormed(abi) && Distinct(fields) && ExtensionsLast(fields) && EncodePositional(abi, fields, vs, room, ext).Some?
    requires Agree(m, NormalPositional(abi, fields, vs, room), OwnNames(fields))
    ensures EncodeFields(abi, fields, m, room, ext, false) == EncodePositional(abi, fields, vs, room, ext)
    decreases room, 1, |fields|
  {
    hide Encode, Normal, WellFormed, OwnNames, Distinct, IsExtension, Plain;
    if fields != [] {
      var f := fields[0];
      if vs == [] {
        NamedIsMissing(fields, m);
        AllOmitted(abi, fields, m, room, false);
      } else {
        DistinctRest(fields);
        PositionsAreNamed(abi, fields[1..], vs[1..], room);
        var own, own' := NormalPositional(abi, fields, vs, room), NormalPositional(abi, fields[1..], vs[1..], room);
        assert own == map[f.name := Normal(abi, Plain(f.ty), vs[0], room)] + own';
        AgreeRest(m, own, own', fields);
        NormalPacksTheSame(abi, Plain(f.ty), vs[0], room, ext && |fields| == 1);
        PositionsPackTheSame(abi, fields[1..], vs[1..], m, room, ext);
      }
    }
  }

  /** Packing what was read back gives the same bytes again. */
  lemma ByteRoundTrip(abi: Abi, t: string, v: Value)
    requires WellFormed(abi) && Encode(abi, t, v, ROOM, true).Some? && Solid(abi, t, Normal(abi, t, v, ROOM), ROOM)
    ensures var r := Decode(abi, t, Encode(abi, t, v, ROOM, true).value, ROOM);
            r.Got? && r.rest == [] && Encode(abi, t, r.value, ROOM, true) == Encode(abi, t, v, ROOM, true)
  {
    hide Encode, Decode, Normal, Solid, WellFormed;
    RoundTripIff(abi, t, v);
    NormalPacksTheSame(abi, t, v, ROOM, true);
  }
}
