/** Packing values into bytes and reading them back, driven by the description of types in an
    ABI: arrays, optional values, tagged variants, structs with bases, and binary extensions,
    which are fields that may be missing at the end of the data. Nesting is limited. */
module Abi {
  import opened Options
  import opened Primitives

  datatype Field = Field(name: string, ty: string)

  /** An empty base means no base. */
  datatype Struct = Struct(base: string, fields: seq<Field>)

  datatype Abi = Abi(typedefs: map<string, string>, structs: map<string, Struct>, variants: map<string, seq<string>>)

  // ----- type names -----

  predicate EndsWith(t: string, suffix: string) {
    |suffix| <= |t| && t[|t| - |suffix|..] == suffix
  }

  predicate IsArray(t: string) {
    EndsWith(t, "[]")
  }

  predicate IsOptional(t: string) {
    EndsWith(t, "?")
  }

  predicate IsExtension(t: string) {
    EndsWith(t, "$")
  }

  function Fundamental(t: string): string {
    if IsArray(t) then t[..|t| - 2] else if IsOptional(t) then t[..|t| - 1] else t
  }

  /** The type without the mark of an extension. */
  function Plain(t: string): string {
    if IsExtension(t) then t[..|t| - 1] else t
  }

  /** Follows at most `n` definitions from a defined name. */
  function Follow(abi: Abi, t: string, n: nat): Option<string>
    requires t in abi.typedefs
    decreases n
  {
    if n == 0 then None
    else
      var u := abi.typedefs[t];
      if u !in abi.typedefs then Some(u) else Follow(abi, u, n - 1)
  }

  /** The type a chain of definitions leads to; the type itself if the chain does not end. */
  function Resolve(abi: Abi, t: string): string {
    if t !in abi.typedefs then t
    else
      var r := Follow(abi, t, |abi.typedefs|);
      if r.Some? then r.value else t
  }

  lemma {:induction false} FollowEnds(abi: Abi, t: string, n: nat)
    requires t in abi.typedefs && Follow(abi, t, n).Some?
    ensures Follow(abi, t, n).value !in abi.typedefs
    decreases n
  {
    if abi.typedefs[t] in abi.typedefs {
      FollowEnds(abi, abi.typedefs[t], n - 1);
    }
  }

  lemma ResolveIsIdempotent(abi: Abi, t: string)
    ensures Resolve(abi, Resolve(abi, t)) == Resolve(abi, t)
  {
    if t in abi.typedefs && Follow(abi, t, |abi.typedefs|).Some? {
      FollowEnds(abi, t, |abi.typedefs|);
    }
  }

  // ----- built-in types, and lists and optional values of them -----

  function EncodeBuiltin(r: string, v: Value): (b: Option<Bytes>)
    requires IsBuiltin(Fundamental(r))
    ensures b.Some? ==> b.value != []
  {
    var f := Fundamental(r);
    if IsArray(r) then
      if v.List? && PackMany(f, v.items).Some? then Some(PackSize(|v.items| % LIMIT) + PackMany(f, v.items).value) else None
    else if IsOptional(r) then
      if v.Null? then Some([0])
      else if PackOne(f, v).Some? then Some([1] + PackOne(f, v).value)
      else None
    else PackOne(f, v)
  }

  function DecodeBuiltin(r: string, s: Bytes): Read<Value>
    requires IsBuiltin(Fundamental(r))
  {
    var f := Fundamental(r);
    if IsArray(r) then
      var n := UnpackSize(s);
      if n.Fail? then Fail
      else
        var vs := UnpackMany(f, n.value, n.rest);
        if vs.Fail? then Fail else Got(List(vs.value), vs.rest)
    else if IsOptional(r) then
      if s == [] || s[0] > 1 then Fail
      else if s[0] == 0 then Got(Null, s[1..])
      else UnpackOne(f, s[1..])
    else UnpackOne(f, s)
  }

  // ----- packing -----

  /** `_variant_to_binary`; `room` scopes may still be entered, and `ext` tells whether
      extensions may be left out. */
  function Encode(abi: Abi, t: string, v: Value, room: nat, ext: bool): Option<Bytes>
    decreases room, 0, 0
  {
    if room == 0 then None
    else
      var r := Resolve(abi, t);
      if IsBuiltin(Fundamental(r)) then EncodeBuiltin(r, v)
      else if IsArray(r) then
        if !v.List? then None
        else
          var b := EncodeItems(abi, Fundamental(r), v.items, room - 1);
          if b.None? then None else Some(PackSize(|v.items| % LIMIT) + b.value)
      else if r in abi.variants then
        if !v.List? || |v.items| != 2 || !v.items[0].Text? || v.items[0].s !in abi.variants[r] then None
        else
          var b := Encode(abi, v.items[0].s, v.items[1], room - 1, ext);
          if b.None? then None else Some(PackSize(Index(abi.variants[r], v.items[0].s)) + b.value)
      else if r in abi.structs then EncodeStruct(abi, r, v, room - 1, ext)
      else None
  }

  /** The first index of a type in a variant. */
  function Index(types: seq<string>, t: string): (k: nat)
    requires t in types
    ensures k < |types| && types[k] == t
  {
    if types[0] == t then 0 else 1 + Index(types[1..], t)
  }

  function EncodeItems(abi: Abi, t: string, vs: seq<Value>, room: nat): Option<Bytes>
    decreases room, 1, |vs|
  {
    if vs == [] then Some([])
    else
      var first, others := Encode(abi, t, vs[0], room, false), EncodeItems(abi, t, vs[1..], room);
      if first.None? || others.None? then None else Some(first.value + others.value)
  }

  function EncodeStruct(abi: Abi, name: string, v: Value, room: nat, ext: bool): Option<Bytes>
    requires name in abi.structs
    decreases room, 2, 0
  {
    var st := abi.structs[name];
    if v.Object? then
      var base := if st.base == "" then Some([]) else Encode(abi, Resolve(abi, st.base), v, room, false);
      var own := EncodeFields(abi, st.fields, v.fields, room, ext, false);
      if base.None? || own.None? then None else Some(base.value + own.value)
    else if v.List? && st.base == "" then EncodePositional(abi, st.fields, v.items, room, ext)
    else None
  }

  /** The fields named in an object; after one was left out the others must be left out too. */
  function EncodeFields(abi: Abi, fields: seq<Field>, m: map<string, Value>, room: nat, ext: bool, omitted: bool): Option<Bytes>
    decreases room, 1, |fields|
  {
    if fields == [] then Some([])
    else
      var f := fields[0];
      if f.name in m then
        if omitted then None
        else
          var first := Encode(abi, Plain(f.ty), m[f.name], room, ext && |fields| == 1);
          var others := EncodeFields(abi, fields[1..], m, room, ext, false);
          if first.None? || others.None? then None else Some(first.value + others.value)
      else if IsExtension(f.ty) && ext then EncodeFields(abi, fields[1..], m, room, ext, true)
      else None
  }

  /** The fields given by position. */
  function EncodePositional(abi: Abi, fields: seq<Field>, vs: seq<Value>, room: nat, ext: bool): Option<Bytes>
    decreases room, 1, |fields|
  {
    if fields == [] then Some([])
    else if vs != [] then
      var first := Encode(abi, Plain(fields[0].ty), vs[0], room, ext && |fields| == 1);
      var others := EncodePositional(abi, fields[1..], vs[1..], room, ext);
      if first.None? || others.None? then None else Some(first.value + others.value)
    else if IsExtension(fields[0].ty) && ext then Some([])
    else None
  }

  // ----- reading -----

  /** `_binary_to_variant`. */
  function Decode(abi: Abi, t: string, s: Bytes, room: nat): Read<Value>
    decreases room, 0, 0
  {
    if room == 0 then Fail
    else
      var r := Resolve(abi, t);
      if IsBuiltin(Fundamental(r)) then DecodeBuiltin(r, s)
      else if IsArray(r) then
        var n := UnpackSize(s);
        if n.Fail? then Fail
        else
          var vs := DecodeItems(abi, Fundamental(r), n.value, n.rest, room - 1);
          if vs.Fail? then Fail else Got(List(vs.value), vs.rest)
      else if IsOptional(r) then
        if s == [] then Fail else if s[0] == 0 then Got(Null, s[1..]) else Decode(abi, Fundamental(r), s[1..], room - 1)
      else if r in abi.variants then
        var n := UnpackSize(s);
        if n.Fail? || n.value >= |abi.variants[r]| then Fail
        else
          var u := abi.variants[r][n.value];
          var v := Decode(abi, u, n.rest, room - 1);
          if v.Fail? then Fail else Got(List([Text(u), v.value]), v.rest)
      else
        var m := DecodeStruct(abi, r, s, room - 1);
        if m.Fail? || m.value == map[] then Fail else Got(Object(m.value), m.rest)
  }

  function DecodeItems(abi: Abi, t: string, n: nat, s: Bytes, room: nat): Read<seq<Value>>
    decreases room, 1, n
  {
    if n == 0 then Got([], s)
    else
      var first := Decode(abi, t, s, room);
      if first.Fail? || first.value.Null? then Fail
      else
        var others := DecodeItems(abi, t, n - 1, first.rest, room);
        if others.Fail? then Fail else Got([first.value] + others.value, others.rest)
  }

  function DecodeStruct(abi: Abi, name: string, s: Bytes, room: nat): Read<map<string, Value>>
    decreases room, 2, 0
  {
    if room == 0 || name !in abi.structs then Fail
    else
      var st := abi.structs[name];
      var base := if st.base == "" then Got(map[], s) else DecodeStruct(abi, Resolve(abi, st.base), s, room - 1);
      if base.Fail? then Fail
      else
        var own := DecodeFields(abi, st.fields, base.rest, room - 1);
        if own.Fail? then Fail else Got(base.value + own.value, own.rest)
  }

  /** At the end of the data extensions are skipped, and other fields are missing. */
  function DecodeFields(abi: Abi, fields: seq<Field>, s: Bytes, room: nat): Read<map<string, Value>>
    decreases room, 1, |fields|
  {
    if fields == [] then Got(map[], s)
    else
      var f := fields[0];
      if s == [] then
        if IsExtension(f.ty) then DecodeFields(abi, fields[1..], s, room) else Fail
      else
        var first := Decode(abi, Plain(f.ty), s, room);
        if first.Fail? then Fail
        else
          var others := DecodeFields(abi, fields[1..], first.rest, room);
          if others.Fail? then Fail else Got(map[f.name := first.value] + others.value, others.rest)
  }

  // ----- the form in which a value is read back -----

  /** Fields given by position get their names, and fields the type does not have are dropped. */
  ghost function Normal(abi: Abi, t: string, v: Value, room: nat): Value
    decreases room, 0, 0
  {
    if room == 0 then v
    else
      var r := Resolve(abi, t);
      if IsBuiltin(Fundamental(r)) then v
      else if IsArray(r) then
        if v.List? then List(NormalItems(abi, Fundamental(r), v.items, room - 1)) else v
      else if r in abi.variants then
        if v.List? && |v.items| == 2 && v.items[0].Text? then
          List([v.items[0], Normal(abi, v.items[0].s, v.items[1], room - 1)])
        else v
      else if r in abi.structs then Object(NormalStruct(abi, r, v, room - 1))
      else v
  }

  ghost function NormalItems(abi: Abi, t: string, vs: seq<Value>, room: nat): (r: seq<Value>)
    ensures |r| == |vs|
    decreases room, 1, |vs|
  {
    if vs == [] then [] else [Normal(abi, t, vs[0], room)] + NormalItems(abi, t, vs[1..], room)
  }

  ghost function NormalStruct(abi: Abi, name: string, v: Value, room: nat): map<string, Value>
    decreases room, 2, 0
  {
    if name !in abi.structs then map[]
    else
      var st := abi.structs[name];
      if v.Object? then
        (if st.base == "" || room == 0 then map[] else NormalStruct(abi, Resolve(abi, st.base), v, room - 1)) +
        NormalFields(abi, st.fields, v.fields, room)
      else if v.List? then NormalPositional(abi, st.fields, v.items, room)
      else map[]
  }

  ghost function NormalFields(abi: Abi, fields: seq<Field>, m: map<string, Value>, room: nat): map<string, Value>
    decreases room, 1, |fields|
  {
    if fields == [] then map[]
    else
      var f := fields[0];
      (if f.name in m then map[f.name := Normal(abi, Plain(f.ty), m[f.name], room)] else map[]) +
      NormalFields(abi, fields[1..], m, room)
  }

  ghost function NormalPositional(abi: Abi, fields: seq<Field>, vs: seq<Value>, room: nat): map<string, Value>
    decreases room, 1, |fields|
  {
    if fields == [] || vs == [] then map[]
    else
      map[fields[0].name := Normal(abi, Plain(fields[0].ty), vs[0], room)] +
      NormalPositional(abi, fields[1..], vs[1..], room)
  }
}
