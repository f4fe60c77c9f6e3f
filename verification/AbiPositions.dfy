/** The fields of a struct may be given by position or by name, and extensions at the end may be
    left out. By position packing stops at the first extension left out, by name it looks at the
    remaining fields; so the two agree unless an ordinary field follows. Where no extension is left
    out, it does not matter whether that would be allowed. */
module AbiPositions {
  import opened Options
  import opened Primitives
  import opened Abi
  import opened AbiRoundTrip

  // ----- by position and by name -----

  /** The object names exactly the first fields, with the given values. */
  ghost predicate Gives(fields: seq<Field>, vs: seq<Value>, m: map<string, Value>) {
    forall i :: 0 <= i < |fields| ==> GivesField(fields[i].name, i, vs, m)
  }

  ghost predicate GivesField(name: string, i: nat, vs: seq<Value>, m: map<string, Value>) {
    if i < |vs| then name in m && m[name] == vs[i] else name !in m
  }

  /** An ordinary field gets no value. */
  ghost predicate LacksOrdinary(fields: seq<Field>, vs: seq<Value>) {
    exists i :: |vs| <= i < |fields| && !IsExtension(fields[i].ty)
  }

  lemma GivesRest(fields: seq<Field>, vs: seq<Value>, m: map<string, Value>)
    requires Gives(fields, vs, m) && fields != [] && vs != []
    ensures fields[0].name in m && m[fields[0].name] == vs[0] && Gives(fields[1..], vs[1..], m)
  {
    assert GivesField(fields[0].name, 0, vs, m);
    forall i | 0 <= i < |fields| - 1 ensures GivesField(fields[1..][i].name, i, vs[1..], m) {
      assert GivesField(fields[i + 1].name, i + 1, vs, m);
    }
  }

  lemma LacksRest(fields: seq<Field>, vs: seq<Value>)
    requires fields != [] && vs != []
    ensures LacksOrdinary(fields, vs) <==> LacksOrdinary(fields[1..], vs[1..])
  {
    hide IsExtension;
    if LacksOrdinary(fields, vs) {
      var i :| |vs| <= i < |fields| && !IsExtension(fields[i].ty);
      assert fields[1..][i - 1] == fields[i];
    }
    if LacksOrdinary(fields[1..], vs[1..]) {
      var i :| |vs[1..]| <= i < |fields[1..]| && !IsExtension(fields[1..][i].ty);
      assert fields[1..][i] == fields[i + 1];
    }
  }

  /** Fields of which none is named. */
  lemma {:induction false} NoneNamed(abi: Abi, fields: seq<Field>, m: map<string, Value>, room: nat, ext: bool, omitted: bool)
    requires Gives(fields, [], m)
    ensures EncodeFields(abi, fields, m, room, ext, omitted) ==
              if fields == [] || (ext && !LacksOrdinary(fields, [])) then Some([]) else None
    decreases |fields|
  {
    hide IsExtension, Encode, Plain;
    if fields != [] {
      assert GivesField(fields[0].name, 0, [], m);
      forall i | 0 <= i < |fields| - 1 ensures GivesField(fields[1..][i].name, i, [], m) {
        assert GivesField(fields[i + 1].name, i + 1, [], m);
      }
      NoneNamed(abi, fields[1..], m, room, ext, true);
      LacksLater(fields);
    }
  }

  lemma LacksLater(fields: seq<Field>)
    requires fields != []
    ensures LacksOrdinary(fields, []) <==> !IsExtension(fields[0].ty) || LacksOrdinary(fields[1..], [])
  {
    hide IsExtension;
    if LacksOrdinary(fields[1..], []) {
      var i :| 0 <= i < |fields[1..]| && !IsExtension(fields[1..][i].ty);
      assert fields[1..][i] == fields[i + 1];
    }
    if LacksOrdinary(fields, []) && IsExtension(fields[0].ty) {
      var i :| 0 <= i < |fields| && !IsExtension(fields[i].ty);
      assert fields[1..][i - 1] == fields[i];
    }
  }

  /** Naming the first fields packs what giving them by position packs, or fails as it does, except
      that positions may succeed where an ordinary field gets no value. */
  lemma {:induction false} PositionsAgreeUnless(abi: Abi, fields: seq<Field>, vs: seq<Value>, m: map<string, Value>, room: nat, ext: bool)
    requires Gives(fields, vs, m)
    ensures var byPosition, byName := EncodePositional(abi, fields, vs, room, ext), EncodeFields(abi, fields, m, room, ext, false);
            && (byName == byPosition <==> byPosition.None? || !LacksOrdinary(fields, vs))
            && (byName.Some? ==> byName == byPosition)
    decreases |fields|
  {
    hide IsExtension, Encode, Plain, Gives, LacksOrdinary;
    if fields == [] {
      LacksNothing(vs);
    } else if vs == [] {
      NoneNamed(abi, fields, m, room, ext, false);
      LacksLater(fields);
    } else {
      GivesRest(fields, vs, m);
      LacksRest(fields, vs);
      PositionsAgreeUnless(abi, fields[1..], vs[1..], m, room, ext);
    }
  }

  // ----- when positions succeed -----

  /** Every value that is given packs; only the last field may leave out extensions of its own. */
  ghost predicate AllPack(abi: Abi, fields: seq<Field>, vs: seq<Value>, room: nat, ext: bool) {
    forall i :: 0 <= i < |fields| && i < |vs| ==> Packs(abi, fields[i], vs[i], room, ext && i == |fields| - 1)
  }

  predicate Packs(abi: Abi, field: Field, v: Value, room: nat, ext: bool) {
    Encode(abi, Plain(field.ty), v, room, ext).Some?
  }

  /** The branch that stops early: the first field without a value is an extension that may be left
      out. */
  predicate MayStop(fields: seq<Field>, vs: seq<Value>, ext: bool) {
    |vs| < |fields| ==> IsExtension(fields[|vs|].ty) && ext
  }

  lemma AllPackRest(abi: Abi, fields: seq<Field>, vs: seq<Value>, room: nat, ext: bool)
    requires fields != [] && vs != []
    ensures AllPack(abi, fields, vs, room, ext) <==>
              Packs(abi, fields[0], vs[0], room, ext && |fields| == 1) && AllPack(abi, fields[1..], vs[1..], room, ext)
  {
    hide Packs;
    if AllPack(abi, fields, vs, room, ext) {
      forall i | 0 <= i < |fields[1..]| && i < |vs[1..]|
        ensures Packs(abi, fields[1..][i], vs[1..][i], room, ext && i == |fields[1..]| - 1)
      {
        assert Packs(abi, fields[i + 1], vs[i + 1], room, ext && i + 1 == |fields| - 1);
      }
    }
    if Packs(abi, fields[0], vs[0], room, ext && |fields| == 1) && AllPack(abi, fields[1..], vs[1..], room, ext) {
      forall i | 0 <= i < |fields| && i < |vs| ensures Packs(abi, fields[i], vs[i], room, ext && i == |fields| - 1) {
        if i > 0 {
          assert Packs(abi, fields[1..][i - 1], vs[1..][i - 1], room, ext && i - 1 == |fields[1..]| - 1);
        }
      }
    }
  }

  lemma {:induction false} PositionsSucceedIff(abi: Abi, fields: seq<Field>, vs: seq<Value>, room: nat, ext: bool)
    ensures EncodePositional(abi, fields, vs, room, ext).Some? <==> AllPack(abi, fields, vs, room, ext) && MayStop(fields, vs, ext)
    decreases |fields|
  {
    hide Encode, Plain, IsExtension, AllPack;
    if fields == [] || vs == [] {
      NothingToPack(abi, fields, vs, room, ext);
    } else {
      AllPackRest(abi, fields, vs, room, ext);
      PositionsSucceedIff(abi, fields[1..], vs[1..], room, ext);
    }
  }

  lemma NothingToPack(abi: Abi, fields: seq<Field>, vs: seq<Value>, room: nat, ext: bool)
    requires fields == [] || vs == []
    ensures AllPack(abi, fields, vs, room, ext)
  {
  }

  /** Naming the first fields and giving them by position have the same result, success or refusal,
      exactly unless the values end at an extension that may be left out, an ordinary field follows,
      and every value packs. */
  lemma PositionsAgreeIff(abi: Abi, fields: seq<Field>, vs: seq<Value>, m: map<string, Value>, room: nat, ext: bool)
    requires Gives(fields, vs, m)
    ensures EncodeFields(abi, fields, m, room, ext, false) != EncodePositional(abi, fields, vs, room, ext) <==>
              && |vs| < |fields| && IsExtension(fields[|vs|].ty) && ext && LacksOrdinary(fields, vs)
              && AllPack(abi, fields, vs, room, ext)
  {
    hide IsExtension, Encode, Plain, Gives, LacksOrdinary, EncodeFields, EncodePositional, AllPack;
    PositionsAgreeUnless(abi, fields, vs, m, room, ext);
    PositionsSucceedIff(abi, fields, vs, room, ext);
    if |vs| >= |fields| {
      LacksNone(fields, vs);
    }
  }

  lemma LacksNone(fields: seq<Field>, vs: seq<Value>)
    requires |vs| >= |fields|
    ensures !LacksOrdinary(fields, vs)
  {
  }

  lemma LacksNothing(vs: seq<Value>)
    ensures !LacksOrdinary([], vs)
  {
  }

  /** A struct that leaves an ordinary field without a value is refused by name, and by position too
      where extensions come last. */
  lemma {:induction false} MissingIsRefused(abi: Abi, fields: seq<Field>, vs: seq<Value>, m: map<string, Value>, room: nat, ext: bool)
    requires Gives(fields, vs, m) && LacksOrdinary(fields, vs)
    ensures EncodeFields(abi, fields, m, room, ext, false) == None
    ensures ExtensionsLast(fields) ==> EncodePositional(abi, fields, vs, room, ext) == None
    decreases |fields|
  {
    hide Encode, Plain, Gives, IsExtension;
    if vs == [] {
      NoneNamed(abi, fields, m, room, ext, false);
    } else {
      GivesRest(fields, vs, m);
      LacksRest(fields, vs);
      if ExtensionsLast(fields) {
        LastOfRest(fields);
      }
      MissingIsRefused(abi, fields[1..], vs[1..], m, room, ext);
    }
  }

  lemma LastOfRest(fields: seq<Field>)
    requires ExtensionsLast(fields) && fields != []
    ensures ExtensionsLast(fields[1..])
  {
    hide IsExtension;
  }

  // ----- whole structs -----

  /** The object that names the first fields. */
  function Named(fields: seq<Field>, vs: seq<Value>): map<string, Value> {
    if fields == [] || vs == [] then map[] else Named(fields[1..], vs[1..])[fields[0].name := vs[0]]
  }

  lemma {:induction false} NamedKeys(fields: seq<Field>, vs: seq<Value>)
    ensures Named(fields, vs).Keys <= OwnNames(fields)
    decreases |fields|
  {
    hide OwnNames;
    if fields != [] && vs != [] {
      NamedKeys(fields[1..], vs[1..]);
      NamesOfRest(fields);
    }
  }

  lemma {:induction false} NamedGives(fields: seq<Field>, vs: seq<Value>)
    requires Distinct(fields)
    ensures Gives(fields, vs, Named(fields, vs))
    decreases |fields|
  {
    hide OwnNames, Distinct;
    if fields != [] && vs != [] {
      var m, rest := Named(fields, vs), Named(fields[1..], vs[1..]);
      DistinctRest(fields);
      NamedGives(fields[1..], vs[1..]);
      forall i | 0 <= i < |fields| ensures GivesField(fields[i].name, i, vs, m) {
        if i > 0 {
          assert fields[1..][i - 1] == fields[i];
          NameOf(fields[1..], i - 1);
          assert GivesField(fields[i].name, i - 1, vs[1..], rest);
        }
      }
    }
  }

  /** For a struct without a base whose extensions come last, a list packs as the object that names
      its first fields does, and is refused when that is. */
  lemma ListPacksAsObject(abi: Abi, name: string, vs: seq<Value>, room: nat, ext: bool)
    requires name in abi.structs && abi.structs[name].base == ""
    requires Distinct(abi.structs[name].fields) && ExtensionsLast(abi.structs[name].fields)
    ensures EncodeStruct(abi, name, List(vs), room, ext) ==
              EncodeStruct(abi, name, Object(Named(abi.structs[name].fields, vs)), room, ext)
  {
    hide EncodeFields, EncodePositional, Distinct, ExtensionsLast, LacksOrdinary, Gives, Encode, Resolve, Named;
    var fields := abi.structs[name].fields;
    var m := Named(fields, vs);
    NamedGives(fields, vs);
    PositionsAgreeUnless(abi, fields, vs, m, room, ext);
    if LacksOrdinary(fields, vs) {
      MissingIsRefused(abi, fields, vs, m, room, ext);
    }
    var own := EncodeFields(abi, fields, m, room, ext, false);
    assert own.Some? ==> [] + own.value == own.value;
  }

  // ----- an extension before an ordinary field -----

  const UNORDERED := Abi(map[], map["s" := Struct("", [Field("a", "uint8$"), Field("b", "uint8")])], map[])

  lemma UnorderedIsStruct()
    ensures Resolve(UNORDERED, "s") == "s" && IsExtension("uint8$") && !IsExtension("uint8")
  {
  }

  lemma EmptyListIsPacked(room: nat)
    requires room > 0
    ensures Encode(UNORDERED, "s", List([]), room, true) == Some([])
  {
    hide EncodeFields, IsBuiltin, IsArray, Resolve, Fundamental, IsExtension;
    PlainName();
    UnorderedIsStruct();
    var fields := UNORDERED.structs["s"].fields;
    assert fields[0] == Field("a", "uint8$");
    assert EncodePositional(UNORDERED, fields, [], room - 1, true) == Some([]);
    assert EncodeStruct(UNORDERED, "s", List([]), room - 1, true) == Some([]);
  }

  lemma EmptyObjectIsRefused(room: nat)
    requires room > 0
    ensures Encode(UNORDERED, "s", Object(map[]), room, true) == None
  {
    hide EncodeFields, IsBuiltin, IsArray, Resolve, Fundamental, IsExtension, Gives;
    PlainName();
    UnorderedIsStruct();
    var fields := UNORDERED.structs["s"].fields;
    assert Gives(fields, [], map[]) by {
      NothingGiven(fields);
    }
    assert fields[1] == Field("b", "uint8");
    NoneNamed(UNORDERED, fields, map[], room - 1, true, false);
  }

  lemma NothingGiven(fields: seq<Field>)
    ensures Gives(fields, [], map[])
  {
  }

  /** Loading an ABI does not ask for extensions to come last. Where one comes before an ordinary
      field, a list may be packed without a value for that field while the object is refused. */
  lemma PositionsMaySkipFields()
    ensures Encode(UNORDERED, "s", List([]), ROOM, true) == Some([]) && Encode(UNORDERED, "s", Object(map[]), ROOM, true) == None
  {
    EmptyListIsPacked(ROOM);
    EmptyObjectIsRefused(ROOM);
  }

  // ----- extensions that are not used -----

  /** What is packed without leaving out extensions is packed the same where that is allowed. */
  lemma {:induction false} AllowingExtensions(abi: Abi, t: string, v: Value, room: nat)
    requires Encode(abi, t, v, room, false).Some?
    ensures Encode(abi, t, v, room, true) == Encode(abi, t, v, room, false)
    decreases room, 0, 0
  {
    hide EncodeItems, EncodeStruct, EncodeBuiltin, Resolve, Fundamental, IsArray, IsBuiltin, PackSize, Index;
    var r := Resolve(abi, t);
    if IsBuiltin(Fundamental(r)) || IsArray(r) {
    } else if r in abi.variants {
      AllowingExtensions(abi, v.items[0].s, v.items[1], room - 1);
    } else {
      AllowingInStruct(abi, r, v, room - 1);
    }
  }

  lemma {:induction false} AllowingInStruct(abi: Abi, name: string, v: Value, room: nat)
    requires name in abi.structs && EncodeStruct(abi, name, v, room, false).Some?
    ensures EncodeStruct(abi, name, v, room, true) == EncodeStruct(abi, name, v, room, false)
    decreases room, 2, 0
  {
    hide EncodeFields, EncodePositional, Encode, Resolve;
    var st := abi.structs[name];
    if v.Object? {
      AllowingInFields(abi, st.fields, v.fields, room);
    } else {
      AllowingInPositions(abi, st.fields, v.items, room);
    }
  }

  lemma {:induction false} AllowingInFields(abi: Abi, fields: seq<Field>, m: map<string, Value>, room: nat)
    requires EncodeFields(abi, fields, m, room, false, false).Some?
    ensures EncodeFields(abi, fields, m, room, true, false) == EncodeFields(abi, fields, m, room, false, false)
    decreases room, 1, |fields|
  {
    hide Encode, Plain, IsExtension;
    if fields != [] {
      if |fields| == 1 {
        AllowingExtensions(abi, Plain(fields[0].ty), m[fields[0].name], room);
      }
      AllowingInFields(abi, fields[1..], m, room);
    }
  }

  lemma {:induction false} AllowingInPositions(abi: Abi, fields: seq<Field>, vs: seq<Value>, room: nat)
    requires EncodePositional(abi, fields, vs, room, false).Some?
    ensures EncodePositional(abi, fields, vs, room, true) == EncodePositional(abi, fields, vs, room, false)
    decreases room, 1, |fields|
  {
    hide Encode, Plain, IsExtension;
    if fields != [] {
      if |fields| == 1 {
        AllowingExtensions(abi, Plain(fields[0].ty), vs[0], room);
      }
      AllowingInPositions(abi, fields[1..], vs[1..], room);
    }
  }

  /** A value packed without leaving out an extension is read back whatever bytes follow. */
  lemma WholeIsReadBack(abi: Abi, t: string, v: Value, re: nat, rest: Bytes, rd: nat)
    requires WellFormed(abi) && Encode(abi, t, v, re, false).Some? && Solid(abi, t, Normal(abi, t, v, re), rd)
    ensures Encode(abi, t, v, re, true).Some?
    ensures Decode(abi, t, Encode(abi, t, v, re, true).value + rest, rd) == Got(Normal(abi, t, v, re), rest)
  {
    hide Encode, Decode, Normal, Solid, WellFormed;
    AllowingExtensions(abi, t, v, re);
    IsReadBack(abi, t, v, re, false, rest, rd);
  }
}
