/** Packing and reading as the serializer does them: values are read from and appended to a
    stream that moves on, and the fields of a struct are put into an object one after the other.
    The effect is exactly that of `Abi.Decode` and `Abi.Encode`. */
module AbiSerializer {
  import opened Options
  import opened Primitives
  import opened Abi

  /** The unread part of the data. */
  class Reader {
    var rest: Bytes

    constructor (data: Bytes)
      ensures rest == data
    {
      rest := data;
    }
  }

  class Writer {
    var data: Bytes

    constructor ()
      ensures data == []
    {
      data := [];
    }
  }

  /** The object under construction. */
  class Builder {
    var fields: map<string, Value>

    constructor ()
      ensures fields == map[]
    {
      fields := map[];
    }
  }

  /** `resolve_type`. */
  method ResolveType(abi: Abi, t: string) returns (r: string)
    ensures r == Resolve(abi, t)
  {
    if t in abi.typedefs {
      var u := t;
      var i := |abi.typedefs|;
      while i > 0
        invariant i >= 0 && u in abi.typedefs && Follow(abi, t, |abi.typedefs|) == Follow(abi, u, i)
      {
        var w := abi.typedefs[u];
        if w !in abi.typedefs {
          return w;
        }
        u := w;
        i := i - 1;
      }
    }
    r := t;
  }

  ghost predicate Reads<T>(o: Option<T>, stream: Reader, expected: Read<T>)
    reads stream
  {
    if expected.Fail? then o.None? else o == Some(expected.value) && stream.rest == expected.rest
  }

  /** `_binary_to_variant` for any type. */
  method ReadValue(abi: Abi, t: string, stream: Reader, room: nat) returns (v: Option<Value>)
    modifies stream
    ensures Reads(v, stream, Decode(abi, t, old(stream.rest), room))
    ensures var r := Resolve(abi, t);
            room > 0 && IsOptional(r) && !IsArray(r) && !IsBuiltin(Fundamental(r)) && old(stream.rest) != [] && old(stream.rest)[0] == 0 ==>
              v == Some(Null) && stream.rest == old(stream.rest)[1..]
    decreases room, 0, 0
  {
    hide DecodeBuiltin, DecodeItems, DecodeStruct, UnpackSize, Resolve, IsBuiltin, EndsWith, Fundamental;
    if room == 0 {
      return None;
    }
    var r := ResolveType(abi, t);
    if IsBuiltin(Fundamental(r)) {
      var o := DecodeBuiltin(r, stream.rest);
      if o.Fail? {
        return None;
      }
      stream.rest := o.rest;
      v := Some(o.value);
    } else if IsArray(r) {
      var n := UnpackSize(stream.rest);
      if n.Fail? {
        return None;
      }
      stream.rest := n.rest;
      var vs := ReadItems(abi, Fundamental(r), n.value, stream, room - 1);
      v := if vs.None? then None else Some(List(vs.value));
    } else if IsOptional(r) {
      if stream.rest == [] {
        return None;
      }
      var flag := stream.rest[0];
      stream.rest := stream.rest[1..];
      if flag != 0 {
        v := ReadValue(abi, Fundamental(r), stream, room - 1);
      } else {
        v := Some(Null);
      }
    } else if r in abi.variants {
      var n := UnpackSize(stream.rest);
      if n.Fail? || n.value >= |abi.variants[r]| {
        return None;
      }
      stream.rest := n.rest;
      var u := abi.variants[r][n.value];
      var inner := ReadValue(abi, u, stream, room - 1);
      v := if inner.None? then None else Some(List([Text(u), inner.value]));
    } else {
      var obj := new Builder();
      var ok := ReadStruct(abi, r, stream, obj, room - 1);
      v := if ok && obj.fields != map[] then Some(Object(obj.fields)) else None;
      ghost var m := DecodeStruct(abi, r, old(stream.rest), room - 1);
      assert m.Got? ==> map[] + m.value == m.value;
    }
  }

  /** What remains to be read, after what was read. */
  ghost function Then(vs: seq<Value>, others: Read<seq<Value>>): Read<seq<Value>> {
    if others.Fail? then Fail else Got(vs + others.value, others.rest)
  }

  lemma ThenNone(others: Read<seq<Value>>)
    ensures Then([], others) == others
  {
    assert others.Got? ==> [] + others.value == others.value;
  }

  lemma ThenOne(vs: seq<Value>, v: Value, others: Read<seq<Value>>)
    ensures Then(vs, Then([v], others)) == Then(vs + [v], others)
  {
    assert others.Got? ==> vs + ([v] + others.value) == vs + [v] + others.value;
  }

  method ReadItems(abi: Abi, t: string, n: nat, stream: Reader, room: nat) returns (vs: Option<seq<Value>>)
    modifies stream
    ensures Reads(vs, stream, DecodeItems(abi, t, n, old(stream.rest), room))
    decreases room, 1, 0
  {
    hide Decode;
    var items: seq<Value> := [];
    ThenNone(DecodeItems(abi, t, n, stream.rest, room));
    for i := 0 to n
      invariant DecodeItems(abi, t, n, old(stream.rest), room) == Then(items, DecodeItems(abi, t, n - i, stream.rest, room))
    {
      var v := ReadValue(abi, t, stream, room);
      if v.None? || v.value.Null? {
        return None;
      }
      ThenOne(items, v.value, DecodeItems(abi, t, n - i - 1, stream.rest, room));
      items := items + [v.value];
    }
    assert items + [] == items;
    vs := Some(items);
  }

  /** `_binary_to_variant` for a struct: adds its fields to an object. */
  method ReadStruct(abi: Abi, name: string, stream: Reader, obj: Builder, room: nat) returns (ok: bool)
    modifies stream, obj
    ensures var m := DecodeStruct(abi, name, old(stream.rest), room);
            && (ok <==> m.Got?)
            && (ok ==> stream.rest == m.rest && obj.fields == old(obj.fields) + m.value)
    decreases room, 2, 0
  {
    hide DecodeFields, Resolve;
    if room == 0 || name !in abi.structs {
      return false;
    }
    var st := abi.structs[name];
    ghost var before := obj.fields;
    if st.base != "" {
      var b := ResolveType(abi, st.base);
      ok := ReadStruct(abi, b, stream, obj, room - 1);
      if !ok {
        return;
      }
    } else {
      SetLast(before, map[], "", Null);
    }
    ghost var base := if st.base == "" then map[] else DecodeStruct(abi, Resolve(abi, st.base), old(stream.rest), room - 1).value;
    ghost var own := DecodeFields(abi, st.fields, stream.rest, room - 1);
    ok := ReadFields(abi, st.fields, stream, obj, room - 1);
    if ok {
      MergeThree(before, base, own.value);
    }
  }

  /** The fields read so far, and those still to come. */
  ghost function After(m: map<string, Value>, others: Read<map<string, Value>>): Read<map<string, Value>> {
    if others.Fail? then Fail else Got(m + others.value, others.rest)
  }

  lemma AfterNone(others: Read<map<string, Value>>)
    ensures After(map[], others) == others
  {
    assert others.Got? ==> map[] + others.value == others.value;
  }

  lemma AfterOne(m: map<string, Value>, name: string, v: Value, others: Read<map<string, Value>>)
    ensures After(m, After(map[name := v], others)) == After(m[name := v], others)
  {
    assert others.Got? ==> m + (map[name := v] + others.value) == m[name := v] + others.value;
  }

  lemma SetLast(before: map<string, Value>, m: map<string, Value>, name: string, v: Value)
    ensures (before + m)[name := v] == before + m[name := v] && before + map[] == before
  {
  }

  lemma NextField(abi: Abi, fields: seq<Field>, i: nat, s: Bytes, room: nat)
    requires i < |fields|
    ensures s == [] ==>
              DecodeFields(abi, fields[i..], s, room) == if IsExtension(fields[i].ty) then DecodeFields(abi, fields[i + 1..], s, room) else Fail
    ensures s != [] ==>
              var first := Decode(abi, Plain(fields[i].ty), s, room);
              DecodeFields(abi, fields[i..], s, room) ==
                if first.Fail? then Fail
                else After(map[fields[i].name := first.value], DecodeFields(abi, fields[i + 1..], first.rest, room))
  {
    hide Decode, IsExtension, Plain;
    assert fields[i..][0] == fields[i] && fields[i..][1..] == fields[i + 1..];
  }

  method ReadFields(abi: Abi, fields: seq<Field>, stream: Reader, obj: Builder, room: nat) returns (ok: bool)
    modifies stream, obj
    ensures var m := DecodeFields(abi, fields, old(stream.rest), room);
            && (ok <==> m.Got?)
            && (ok ==> stream.rest == m.rest && obj.fields == old(obj.fields) + m.value)
    decreases room, 1, 0
  {
    hide Decode, IsExtension, Plain, DecodeFields, After;
    ghost var m: map<string, Value> := map[];
    ghost var all := DecodeFields(abi, fields, stream.rest, room);
    assert fields[0..] == fields;
    AfterNone(all);
    SetLast(obj.fields, map[], "", Null);
    for i := 0 to |fields|
      invariant all == After(m, DecodeFields(abi, fields[i..], stream.rest, room))
      invariant obj.fields == old(obj.fields) + m
    {
      NextField(abi, fields, i, stream.rest, room);
      if stream.rest == [] {
        if !IsExtension(fields[i].ty) {
          AfterFail(m);
          assert all == Fail;
          return false;
        }
      } else {
        var v := ReadValue(abi, Plain(fields[i].ty), stream, room);
        if v.None? {
          AfterFail(m);
          return false;
        }
        AfterOne(m, fields[i].name, v.value, DecodeFields(abi, fields[i + 1..], stream.rest, room));
        SetLast(old(obj.fields), m, fields[i].name, v.value);
        obj.fields := obj.fields[fields[i].name := v.value];
        m := m[fields[i].name := v.value];
      }
    }
    assert fields[|fields|..] == [];
    AfterAll(abi, m, stream.rest, room);
    ok := true;
  }

  lemma MergeThree(a: map<string, Value>, b: map<string, Value>, c: map<string, Value>)
    ensures a + b + c == a + (b + c)
  {
  }

  lemma AfterFail(m: map<string, Value>)
    ensures After(m, Fail) == Fail
  {
  }

  lemma AfterAll(abi: Abi, m: map<string, Value>, s: Bytes, room: nat)
    ensures After(m, DecodeFields(abi, [], s, room)) == Got(m, s)
  {
    assert m + map[] == m;
  }

  // ----- packing -----

  /** Either the bytes were appended, or packing failed. */
  ghost predicate Writes(ok: bool, before: Bytes, after: Bytes, expected: Option<Bytes>) {
    (ok <==> expected.Some?) && (ok ==> after == before + expected.value)
  }

  /** The bytes packed so far, and those still to come. */
  ghost function Before(b: Bytes, others: Option<Bytes>): Option<Bytes> {
    if others.None? then None else Some(b + others.value)
  }

  lemma BeforeOne(b: Bytes, c: Bytes, others: Option<Bytes>)
    ensures Before(b, Before(c, others)) == Before(b + c, others)
  {
    assert others.Some? ==> b + (c + others.value) == b + c + others.value;
  }

  lemma BeforeNone(others: Option<Bytes>)
    ensures Before([], others) == others
  {
    assert others.Some? ==> [] + others.value == others.value;
  }

  lemma Append(a: Bytes, b: Bytes, c: Bytes)
    ensures a + (b + c) == a + b + c && a + [] == a
  {
  }

  /** The position of a type in a variant. */
  method FindType(types: seq<string>, t: string) returns (k: nat)
    ensures k <= |types| && (k == |types| <==> t !in types)
    ensures t in types ==> k == Index(types, t)
  {
    k := 0;
    while k < |types| && types[k] != t
      invariant k <= |types| && forall i :: 0 <= i < k ==> types[i] != t
    {
      k := k + 1;
    }
    if k < |types| {
      FirstIsIndex(types, t, k);
    }
  }

  lemma {:induction false} FirstIsIndex(types: seq<string>, t: string, k: nat)
    requires k < |types| && types[k] == t && forall i :: 0 <= i < k ==> types[i] != t
    ensures t in types && Index(types, t) == k
  {
    if k > 0 {
      FirstIsIndex(types[1..], t, k - 1);
    }
  }

  /** `_variant_to_binary` for any type. */
  method WriteValue(abi: Abi, t: string, v: Value, stream: Writer, room: nat, ext: bool) returns (ok: bool)
    modifies stream
    ensures Writes(ok, old(stream.data), stream.data, Encode(abi, t, v, room, ext))
    decreases room, 0, 0
  {
    hide EncodeBuiltin, EncodeItems, EncodeStruct, PackSize, Resolve, IsBuiltin, EndsWith, Fundamental;
    if room == 0 {
      return false;
    }
    ghost var before := stream.data;
    var r := ResolveType(abi, t);
    if IsBuiltin(Fundamental(r)) {
      var b := EncodeBuiltin(r, v);
      if b.None? {
        return false;
      }
      stream.data := stream.data + b.value;
      ok := true;
    } else if IsArray(r) {
      if !v.List? {
        return false;
      }
      var size := PackSize(|v.items| % LIMIT);
      stream.data := stream.data + size;
      ok := WriteItems(abi, Fundamental(r), v.items, stream, room - 1);
      if ok {
        Append(before, size, EncodeItems(abi, Fundamental(r), v.items, room - 1).value);
      }
    } else if r in abi.variants {
      if !v.List? || |v.items| != 2 || !v.items[0].Text? {
        return false;
      }
      var k := FindType(abi.variants[r], v.items[0].s);
      if k == |abi.variants[r]| {
        return false;
      }
      stream.data := stream.data + PackSize(k);
      ok := WriteValue(abi, v.items[0].s, v.items[1], stream, room - 1, ext);
      if ok {
        Append(before, PackSize(k), Encode(abi, v.items[0].s, v.items[1], room - 1, ext).value);
      }
    } else if r in abi.structs {
      ok := WriteStruct(abi, r, v, stream, room - 1, ext);
    } else {
      ok := false;
    }
  }

  lemma NextItem(abi: Abi, t: string, vs: seq<Value>, i: nat, room: nat)
    requires i < |vs|
    ensures var first := Encode(abi, t, vs[i], room, false);
            EncodeItems(abi, t, vs[i..], room) == if first.None? then None else Before(first.value, EncodeItems(abi, t, vs[i + 1..], room))
  {
    hide Encode;
    assert vs[i..][0] == vs[i] && vs[i..][1..] == vs[i + 1..];
  }

  method WriteItems(abi: Abi, t: string, vs: seq<Value>, stream: Writer, room: nat) returns (ok: bool)
    modifies stream
    ensures Writes(ok, old(stream.data), stream.data, EncodeItems(abi, t, vs, room))
    decreases room, 1, 0
  {
    hide Encode, EncodeItems;
    ghost var before := stream.data;
    ghost var b: Bytes := [];
    BeforeNone(EncodeItems(abi, t, vs, room));
    assert vs[0..] == vs;
    Append(before, [], []);
    for i := 0 to |vs|
      invariant EncodeItems(abi, t, vs, room) == Before(b, EncodeItems(abi, t, vs[i..], room))
      invariant stream.data == before + b
    {
      NextItem(abi, t, vs, i, room);
      ok := WriteValue(abi, t, vs[i], stream, room, false);
      if !ok {
        return;
      }
      ghost var c := Encode(abi, t, vs[i], room, false).value;
      BeforeOne(b, c, EncodeItems(abi, t, vs[i + 1..], room));
      Append(before, b, c);
      b := b + c;
    }
    assert vs[|vs|..] == [];
    NoItems(abi, t, b, room);
    ok := true;
  }

  lemma NoItems(abi: Abi, t: string, b: Bytes, room: nat)
    ensures Before(b, EncodeItems(abi, t, [], room)) == Some(b)
  {
    Append(b, [], []);
  }

  method WriteStruct(abi: Abi, name: string, v: Value, stream: Writer, room: nat, ext: bool) returns (ok: bool)
    requires name in abi.structs
    modifies stream
    ensures Writes(ok, old(stream.data), stream.data, EncodeStruct(abi, name, v, room, ext))
    decreases room, 2, 0
  {
    hide Encode, EncodeFields, EncodePositional, Resolve;
    var st := abi.structs[name];
    ghost var before := stream.data;
    if v.Object? {
      ghost var base: Bytes := [];
      Append(before, [], []);
      if st.base != "" {
        var b := ResolveType(abi, st.base);
        ok := WriteValue(abi, b, v, stream, room, false);
        if !ok {
          return;
        }
        base := Encode(abi, b, v, room, false).value;
      }
      ok := WriteFields(abi, st.fields, v.fields, stream, room, ext);
      if ok {
        Append(before, base, EncodeFields(abi, st.fields, v.fields, room, ext, false).value);
      }
    } else if v.List? && st.base == "" {
      ok := WritePositional(abi, st.fields, v.items, stream, room, ext);
    } else {
      ok := false;
    }
  }

  lemma NextNamed(abi: Abi, fields: seq<Field>, i: nat, m: map<string, Value>, room: nat, ext: bool, omitted: bool)
    requires i < |fields|
    ensures fields[i].name in m && omitted ==> EncodeFields(abi, fields[i..], m, room, ext, omitted) == None
    ensures fields[i].name in m && !omitted ==>
              var first := Encode(abi, Plain(fields[i].ty), m[fields[i].name], room, ext && i == |fields| - 1);
              EncodeFields(abi, fields[i..], m, room, ext, omitted) ==
                if first.None? then None else Before(first.value, EncodeFields(abi, fields[i + 1..], m, room, ext, false))
    ensures fields[i].name !in m ==>
              EncodeFields(abi, fields[i..], m, room, ext, omitted) ==
                if IsExtension(fields[i].ty) && ext then EncodeFields(abi, fields[i + 1..], m, room, ext, true) else None
  {
    hide Encode, IsExtension, Plain;
    assert fields[i..][0] == fields[i] && fields[i..][1..] == fields[i + 1..];
  }

  method WriteFields(abi: Abi, fields: seq<Field>, m: map<string, Value>, stream: Writer, room: nat, ext: bool) returns (ok: bool)
    modifies stream
    ensures Writes(ok, old(stream.data), stream.data, EncodeFields(abi, fields, m, room, ext, false))
    decreases room, 1, 0
  {
    hide Encode, EncodeFields, IsExtension, Plain;
    ghost var before := stream.data;
    ghost var b: Bytes := [];
    var omitted := false;
    BeforeNone(EncodeFields(abi, fields, m, room, ext, false));
    assert fields[0..] == fields;
    Append(before, [], []);
    for i := 0 to |fields|
      invariant EncodeFields(abi, fields, m, room, ext, false) == Before(b, EncodeFields(abi, fields[i..], m, room, ext, omitted))
      invariant stream.data == before + b
    {
      NextNamed(abi, fields, i, m, room, ext, omitted);
      var f := fields[i];
      if f.name in m {
        if omitted {
          return false;
        }
        ok := WriteValue(abi, Plain(f.ty), m[f.name], stream, room, ext && i == |fields| - 1);
        if !ok {
          return;
        }
        ghost var c := Encode(abi, Plain(f.ty), m[f.name], room, ext && i == |fields| - 1).value;
        BeforeOne(b, c, EncodeFields(abi, fields[i + 1..], m, room, ext, false));
        Append(before, b, c);
        b := b + c;
      } else if IsExtension(f.ty) && ext {
        omitted := true;
      } else {
        return false;
      }
    }
    assert fields[|fields|..] == [];
    NoFields(abi, b, m, room, ext, omitted);
    ok := true;
  }

  lemma NoFields(abi: Abi, b: Bytes, m: map<string, Value>, room: nat, ext: bool, omitted: bool)
    ensures Before(b, EncodeFields(abi, [], m, room, ext, omitted)) == Some(b)
  {
    Append(b, [], []);
  }

  lemma NextPosition(abi: Abi, fields: seq<Field>, i: nat, vs: seq<Value>, room: nat, ext: bool)
    requires i < |fields| && i <= |vs|
    ensures i < |vs| ==>
              var first := Encode(abi, Plain(fields[i].ty), vs[i], room, ext && i == |fields| - 1);
              EncodePositional(abi, fields[i..], vs[i..], room, ext) ==
                if first.None? then None else Before(first.value, EncodePositional(abi, fields[i + 1..], vs[i + 1..], room, ext))
    ensures i == |vs| ==>
              EncodePositional(abi, fields[i..], vs[i..], room, ext) == if IsExtension(fields[i].ty) && ext then Some([]) else None
  {
    hide Encode, IsExtension, Plain;
    assert fields[i..][0] == fields[i] && fields[i..][1..] == fields[i + 1..];
    if i < |vs| {
      assert vs[i..][0] == vs[i] && vs[i..][1..] == vs[i + 1..];
    }
  }

  method WritePositional(abi: Abi, fields: seq<Field>, vs: seq<Value>, stream: Writer, room: nat, ext: bool) returns (ok: bool)
    modifies stream
    ensures Writes(ok, old(stream.data), stream.data, EncodePositional(abi, fields, vs, room, ext))
    decreases room, 1, 0
  {
    hide Encode, EncodePositional, IsExtension, Plain;
    ghost var before := stream.data;
    ghost var b: Bytes := [];
    BeforeNone(EncodePositional(abi, fields, vs, room, ext));
    assert fields[0..] == fields && vs[0..] == vs;
    Append(before, [], []);
    for i := 0 to |fields|
      invariant i <= |vs|
      invariant EncodePositional(abi, fields, vs, room, ext) == Before(b, EncodePositional(abi, fields[i..], vs[i..], room, ext))
      invariant stream.data == before + b
    {
      NextPosition(abi, fields, i, vs, room, ext);
      if i < |vs| {
        ok := WriteValue(abi, Plain(fields[i].ty), vs[i], stream, room, ext && i == |fields| - 1);
        if !ok {
          return;
        }
        ghost var c := Encode(abi, Plain(fields[i].ty), vs[i], room, ext && i == |fields| - 1).value;
        BeforeOne(b, c, EncodePositional(abi, fields[i + 1..], vs[i + 1..], room, ext));
        Append(before, b, c);
        b := b + c;
      } else if IsExtension(fields[i].ty) && ext {
        Append(b, [], []);
        return true;
      } else {
        return false;
      }
    }
    assert fields[|fields|..] == [];
    NoPositions(abi, b, vs[|fields|..], room, ext);
    ok := true;
  }

  lemma NoPositions(abi: Abi, b: Bytes, vs: seq<Value>, room: nat, ext: bool)
    ensures Before(b, EncodePositional(abi, [], vs, room, ext)) == Some(b)
  {
    Append(b, [], []);
  }
}
