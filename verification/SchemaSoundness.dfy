/**
 What a generated document means: which JSON it accepts under JSON Schema draft
 2020-12, and which Go values encode to JSON it accepts.  Encoding is that of
 encoding/json: nil becomes null, omitempty drops empty fields, a type that
 marshals itself contributes the JSON it chose.
 */
module SchemaSoundness {
  import opened Basics
  import Sorting
  import opened JsonSchema

  // ---- JSON and validation

  datatype Json = Null | Flag(b: bool) | Num(r: real) | Text(s: string) | List(elems: seq<Json>) | Obj(members: seq<Member>)

  datatype Member = Member(name: string, value: Json)

  predicate IsType(name: string, j: Json) {
    match j
    case Null => name == "null"
    case Flag(_) => name == "boolean"
    case Num(r) => name == "number" || (name == "integer" && r == r.Floor as real)
    case Text(_) => name == "string"
    case List(_) => name == "array"
    case Obj(_) => name == "object"
  }

  /** The type keyword (section 6.1.1 of JSON Schema Validation). */
  predicate TypeOk(types: seq<string>, j: Json) {
    types == [] || exists i :: 0 <= i < |types| && IsType(types[i], j)
  }

  predicate LeafOk(types: seq<string>, enum: Option<seq<string>>, j: Json) {
    TypeOk(types, j) && (enum.Some? ==> j.Text? && j.s in enum.value)
  }

  /** The pattern ^major\.[0-9]+$. */
  predicate MatchesVersion(major: string, s: string) {
    |s| > |major| && s[..|major|] == major && s[|major|] == '.' && Digits(s[|major| + 1..])
  }

  predicate Accepts(defs: map<string, ObjectSchema>, s: Schema, j: Json)
    decreases j, 1, s
  {
    match s
    case Leaf(types, enum) => LeafOk(types, enum, j)
    case Array(types, items) =>
      TypeOk(types, j) && (j.List? ==> forall i :: 0 <= i < |j.elems| ==> Accepts(defs, items, j.elems[i]))
    case Properties(types, names, values) =>
      && TypeOk(types, j)
      && (j.Obj? ==> forall i :: 0 <= i < |j.members| ==>
            (names.Some? ==> j.members[i].name in names.value) && Accepts(defs, values, j.members[i].value))
    case Ref(k) => k in defs && AcceptsObject(defs, defs[k], j)
    case AnyOf(a, b) => Accepts(defs, a, j) || Accepts(defs, b, j)
    case Version(major) => j.Text? && MatchesVersion(major, j.s)
  }

  predicate HasMember(j: Json, name: string) {
    j.Obj? && exists i :: 0 <= i < |j.members| && j.members[i].name == name
  }

  /** An inline object schema; required is section 6.5.3. */
  predicate AcceptsObject(defs: map<string, ObjectSchema>, o: ObjectSchema, j: Json)
    decreases j, 0, Ref("")
  {
    && j.Obj?
    && (forall i :: 0 <= i < |j.members| && j.members[i].name in o.properties ==>
          Accepts(defs, o.properties[j.members[i].name], j.members[i].value))
    && forall n :: n in o.required ==> HasMember(j, n)
  }

  // ---- Go values

  /** Nil is a nil pointer, slice or map; Custom is a value that marshals itself. */
  datatype Value =
    | Nil
    | StrV(s: string)
    | BoolV(b: bool)
    | IntV(n: int)
    | FloatV(r: real)
    | BytesV(base64: string)
    | PtrV(to: Value)
    | SliceV(elems: seq<Value>)
    | DictV(entries: seq<DictEntry>)
    | StructV(fields: seq<Value>)
    | Custom(json: Json, empty: bool)

  datatype DictEntry = DictEntry(key: string, value: Value)

  /** encoding/json writes exported fields, and embedded structs that were given a name. */
  predicate Emitted(f: Field) {
    !f.skip && (f.exported || (f.embedded && (f.typ.Struct? || (f.typ.Pointer? && f.typ.elem.Struct?))))
  }

  predicate AsBytes(u: Universe, m: Meta, elem: Type) { IsByte(elem) && elem.key !in m.overrides }

  predicate HasType(u: Universe, m: Meta, t: Type, v: Value)
    decreases v
  {
    if KeyOf(u, t) in m.overrides then v.Custom?
    else
      match t
      case Str(_) => v.StrV?
      case Bool(_) => v.BoolV?
      case Int(_, _) => v.IntV?
      case Float(_) => v.FloatV?
      case Pointer(_, elem) => v.Nil? || (v.PtrV? && HasType(u, m, elem, v.to))
      case Slice(_, elem) =>
        v.Nil? || (if AsBytes(u, m, elem) then v.BytesV?
                   else v.SliceV? && forall i :: 0 <= i < |v.elems| ==> HasType(u, m, elem, v.elems[i]))
      case Dict(_, _, elem) =>
        v.Nil? || (v.DictV? && forall i :: 0 <= i < |v.entries| ==> HasType(u, m, elem, v.entries[i].value))
      case Struct(id) => id in u && v.StructV? && StructTyped(u, m, id, v)
      case Opaque(_) => v.Custom?
  }

  predicate StructTyped(u: Universe, m: Meta, id: string, v: Value)
    requires id in u
    decreases v, 0
  {
    && v.StructV? && |v.fields| == |u[id].fields|
    && forall i :: 0 <= i < |v.fields| && Emitted(u[id].fields[i]) ==> HasType(u, m, u[id].fields[i].typ, v.fields[i])
  }

  /** What omitempty calls empty. */
  predicate Empty(v: Value) {
    match v
    case Nil => true
    case StrV(s) => s == ""
    case BoolV(b) => !b
    case IntV(n) => n == 0
    case FloatV(r) => r == 0.0
    case BytesV(s) => s == ""
    case PtrV(_) => false
    case SliceV(es) => es == []
    case DictV(es) => es == []
    case StructV(_) => false
    case Custom(_, empty) => empty
  }

  predicate Dropped(f: Field, v: Value) { f.omitempty && Empty(v) }

  predicate Written(f: Field, v: Value) { Emitted(f) && !Dropped(f, v) }

  function Encode(u: Universe, m: Meta, t: Type, v: Value): (j: Json)
    requires HasType(u, m, t, v)
    decreases v, 1, 0
  {
    match v
    case Nil => Null
    case StrV(s) => Text(s)
    case BoolV(b) => Flag(b)
    case IntV(n) => Num(n as real)
    case FloatV(r) => Num(r)
    case BytesV(s) => Text(s)
    case PtrV(to) => Encode(u, m, t.elem, to)
    case SliceV(es) => List(seq(|es|, i requires 0 <= i < |es| => Encode(u, m, t.elem, es[i])))
    case DictV(es) => Obj(seq(|es|, i requires 0 <= i < |es| => Member(es[i].key, Encode(u, m, t.elem, es[i].value))))
    case StructV(vs) => Obj(Members(u, m, t.id, v, |vs|))
    case Custom(j, _) => j
  }

  /** The members of the first n fields. */
  function Members(u: Universe, m: Meta, id: string, v: Value, n: nat): (ms: seq<Member>)
    requires id in u && StructTyped(u, m, id, v) && n <= |v.fields|
    decreases v, 0, n
  {
    if n == 0 then []
    else
      var f := u[id].fields[n - 1];
      if Written(f, v.fields[n - 1]) then
        Members(u, m, id, v, n - 1) + [Member(NameOf(f), Encode(u, m, f.typ, v.fields[n - 1]))]
      else Members(u, m, id, v, n - 1)
  }

  // ---- which values are described correctly

  /** A nil, possibly behind pointers, or a custom null. */
  predicate EncodesNull(v: Value) {
    match v
    case Nil => true
    case PtrV(to) => EncodesNull(to)
    case Custom(j, _) => j.Null?
    case _ => false
  }

  /** The type's schema lists its values, so that null is never among them. */
  predicate PinnedByEnum(u: Universe, m: Meta, t: Type) {
    var key := KeyOf(u, t);
    if key in m.overrides then m.overrides[key] != [] && key in m.enums
    else
      match t
      case Str(_) => key in m.enums
      case Pointer(_, elem) => PinnedByEnum(u, m, elem)
      case _ => false
  }

  /**
   Where null is allowed: at a field without omitempty whose type is a slice (not
   of bytes), a map, or a pointer to something that is not an enum.
   */
  predicate NullOk(u: Universe, m: Meta, t: Type, omit: bool) {
    var key := KeyOf(u, t);
    if key in m.overrides then key !in m.enums && TypeOk(m.overrides[key], Null)
    else
      match t
      case Pointer(_, elem) => if omit then NullOk(u, m, elem, true) else !PinnedByEnum(u, m, elem)
      case Slice(_, elem) => !omit && !IsByte(elem)
      case Dict(_, _, _) => !omit
      case _ => false
  }

  predicate InEnum(m: Meta, key: string, s: string) { key in m.enums ==> s in m.enums[key] }

  /** A value its type's schema describes: nulls only where allowed, enum values from their enum. */
  predicate Safe(u: Universe, m: Meta, t: Type, omit: bool, v: Value)
    requires HasType(u, m, t, v)
    decreases v, 2
  {
    if EncodesNull(v) then NullOk(u, m, t, omit)
    else if KeyOf(u, t) in m.overrides then LeafOk(m.overrides[KeyOf(u, t)], EnumOf(m, KeyOf(u, t)), v.json)
    else
      match t
      case Str(key) => InEnum(m, key, v.s)
      case Bool(_) => true
      case Int(_, _) => true
      case Float(_) => true
      case Pointer(_, elem) => Safe(u, m, elem, true, v.to)
      case Slice(_, elem) =>
        if IsByte(elem) then v.BytesV? else forall i :: 0 <= i < |v.elems| ==> Safe(u, m, elem, true, v.elems[i])
      case Dict(_, index, elem) =>
        forall i :: 0 <= i < |v.entries| ==>
          (index.Str? ==> InEnum(m, index.key, v.entries[i].key)) && Safe(u, m, elem, true, v.entries[i].value)
      case Struct(id) => SafeStruct(u, m, id, v)
      case Opaque(_) => true
  }

  predicate SafeStruct(u: Universe, m: Meta, id: string, v: Value)
    requires id in u && StructTyped(u, m, id, v)
    decreases v, 1
  {
    forall i :: 0 <= i < |v.fields| ==> SafeField(u, m, id, v, i)
  }

  predicate SafeField(u: Universe, m: Meta, id: string, v: Value, i: nat)
    requires id in u && StructTyped(u, m, id, v) && i < |v.fields|
    decreases v, 0
  {
    var f := u[id].fields[i];
    Visible(f) && !Dropped(f, v.fields[i]) ==> Safe(u, m, f.typ, f.omitempty, v.fields[i])
  }

  // ---- null

  lemma {:induction false} NullEncoding(u: Universe, m: Meta, t: Type, v: Value)
    requires HasType(u, m, t, v)
    ensures Encode(u, m, t, v).Null? <==> EncodesNull(v)
  {
    if v.PtrV? {
      NullEncoding(u, m, t.elem, v.to);
    }
  }

  lemma {:induction false} NullType(types: seq<string>)
    ensures TypeOk(types + ["null"], Null)
  {
    assert (types + ["null"])[|types|] == "null";
  }

  lemma {:induction false} OtherType(types: seq<string>, j: Json)
    requires !j.Null? && types != []
    ensures TypeOk(types + ["null"], j) <==> TypeOk(types, j)
  {
    var ts := types + ["null"];
    if TypeOk(ts, j) {
      var i :| 0 <= i < |ts| && IsType(ts[i], j);
      assert ts[i] == types[i];
    }
    if TypeOk(types, j) {
      var i :| 0 <= i < |types| && IsType(types[i], j);
      assert ts[i] == types[i];
    }
  }

  /** Making a schema nullable adds null and nothing else. */
  lemma {:induction false} NullableExact(defs: map<string, ObjectSchema>, s: Schema, j: Json)
    requires (s.Array? || s.Properties?) ==> s.types != []
    ensures !j.Null? ==> (Accepts(defs, Nullable(s), j) <==> Accepts(defs, s, j))
    ensures j.Null? ==> (Accepts(defs, Nullable(s), j) <==> !(s.Leaf? && s.types != [] && s.enum.Some?))
  {
    assert IsType(["null"][0], j) <==> j.Null?;
    match s
    case Leaf(types, enum) =>
      NullType(types);
      if !j.Null? && types != [] { OtherType(types, j); }
    case Array(types, items) =>
      NullType(types);
      if !j.Null? { OtherType(types, j); }
    case Properties(types, names, values) =>
      NullType(types);
      if !j.Null? { OtherType(types, j); }
    case _ =>
  }

  /** The shape of what `field` emits: arrays and maps carry a type; an enum pins a leaf. */
  lemma {:induction false} FieldShape(u: Universe, m: Meta, t: Type)
    requires FieldSchema(u, m, t, true).Some?
    ensures var s := FieldSchema(u, m, t, true).value;
      && ((s.Array? || s.Properties?) ==> s.types != [])
      && (s.Leaf? && s.types != [] && s.enum.Some? <==> PinnedByEnum(u, m, t))
  {
    if KeyOf(u, t) !in m.overrides && t.Pointer? {
      FieldShape(u, m, t.elem);
    }
  }

  lemma {:induction false} OneType(name: string, j: Json)
    ensures TypeOk([name], j) <==> IsType(name, j)
  {
    assert [name][0] == name;
  }

  lemma {:induction false} TwoTypes(a: string, b: string, j: Json)
    ensures TypeOk([a, b], j) <==> IsType(a, j) || IsType(b, j)
  {
    assert [a, b][0] == a && [a, b][1] == b;
  }

  /** A schema accepts null exactly where null is allowed. */
  lemma {:induction false} NullExact(u: Universe, m: Meta, defs: map<string, ObjectSchema>, t: Type, omit: bool)
    requires FieldSchema(u, m, t, omit).Some?
    ensures Accepts(defs, FieldSchema(u, m, t, omit).value, Null) <==> NullOk(u, m, t, omit)
  {
    if KeyOf(u, t) !in m.overrides {
      match t
      case Str(_) => OneType("string", Null);
      case Bool(_) => OneType("boolean", Null);
      case Int(_, _) => OneType("integer", Null);
      case Float(_) => OneType("number", Null);
      case Pointer(_, elem) =>
        NullExact(u, m, defs, elem, true);
        FieldShape(u, m, elem);
        NullableExact(defs, FieldSchema(u, m, elem, true).value, Null);
      case Slice(_, elem) =>
        OneType("string", Null);
        OneType("array", Null);
        TwoTypes("array", "null", Null);
      case Dict(_, _, _) =>
        OneType("object", Null);
        TwoTypes("object", "null", Null);
      case _ =>
    }
  }

  // ---- structs

  ghost predicate DistinctNames(u: Universe) {
    forall id :: id in u ==> NamesDiffer(u[id].fields)
  }

  /** Fields that are written have different JSON names. */
  ghost predicate NamesDiffer(fs: seq<Field>) {
    forall i, j :: 0 <= i < j < |fs| && Emitted(fs[i]) && Emitted(fs[j]) ==> NameOf(fs[i]) != NameOf(fs[j])
  }

  /** A visible field's property is its own schema. */
  lemma {:induction false} PropertyOfField(u: Universe, m: Meta, fs: seq<Field>, n: nat, i: nat)
    requires NamesDiffer(fs) && i < n <= |fs| && FieldsUpTo(u, m, fs, n).Some? && Visible(fs[i])
    ensures var o, s := FieldsUpTo(u, m, fs, n).value, FieldSchema(u, m, fs[i].typ, fs[i].omitempty);
      s.Some? && NameOf(fs[i]) in o.properties && o.properties[NameOf(fs[i])] == s.value
  {
    if i < n - 1 {
      PropertyOfField(u, m, fs, n - 1, i);
    }
  }

  ghost predicate NamedBy(fs: seq<Field>, n: nat, i: int, name: string) {
    0 <= i < n <= |fs| && Visible(fs[i]) && NameOf(fs[i]) == name
  }

  /** Every property and every required name belongs to a visible field; a required one has no omitempty. */
  lemma {:induction false} PropertiesAreFields(u: Universe, m: Meta, fs: seq<Field>, n: nat)
    requires n <= |fs| && FieldsUpTo(u, m, fs, n).Some?
    ensures var o := FieldsUpTo(u, m, fs, n).value;
      && (forall name :: name in o.properties ==> exists i :: NamedBy(fs, n, i, name))
      && (forall name :: name in o.required ==> exists i :: NamedBy(fs, n, i, name) && !fs[i].omitempty)
  {
    if n > 0 {
      PropertiesAreFields(u, m, fs, n - 1);
      var o, o' := FieldsUpTo(u, m, fs, n - 1).value, FieldsUpTo(u, m, fs, n).value;
      var f := fs[n - 1];
      forall name | name in o'.properties ensures exists i :: NamedBy(fs, n, i, name) {
        if name in o.properties {
          var i :| NamedBy(fs, n - 1, i, name);
          assert NamedBy(fs, n, i, name);
        } else {
          assert NamedBy(fs, n, n - 1, name);
        }
      }
      forall name | name in o'.required ensures exists i :: NamedBy(fs, n, i, name) && !fs[i].omitempty {
        if name in o.required {
          var i :| NamedBy(fs, n - 1, i, name) && !fs[i].omitempty;
          assert NamedBy(fs, n, i, name);
        } else {
          assert NamedBy(fs, n, n - 1, name);
        }
      }
    }
  }

  /** A visible field without omitempty is required. */
  lemma {:induction false} RequiredOfField(u: Universe, m: Meta, fs: seq<Field>, n: nat, i: nat)
    requires i < n <= |fs| && FieldsUpTo(u, m, fs, n).Some? && Visible(fs[i]) && !fs[i].omitempty
    ensures NameOf(fs[i]) in FieldsUpTo(u, m, fs, n).value.required
  {
    if i < n - 1 {
      RequiredOfField(u, m, fs, n - 1, i);
    }
  }

  /** The k-th member of an encoded struct was written by field i. */
  ghost predicate WrittenBy(u: Universe, m: Meta, id: string, v: Value, n: nat, i: int, e: Member)
    requires id in u && StructTyped(u, m, id, v) && n <= |v.fields|
  {
    && 0 <= i < n && Written(u[id].fields[i], v.fields[i])
    && e == Member(NameOf(u[id].fields[i]), Encode(u, m, u[id].fields[i].typ, v.fields[i]))
  }

  /** The members are exactly what the written fields encode to. */
  lemma {:induction false} MembersExact(u: Universe, m: Meta, id: string, v: Value, n: nat, e: Member)
    requires id in u && StructTyped(u, m, id, v) && n <= |v.fields|
    ensures e in Members(u, m, id, v, n) <==> exists i :: WrittenBy(u, m, id, v, n, i, e)
  {
    if n > 0 {
      MembersExact(u, m, id, v, n - 1, e);
      if e in Members(u, m, id, v, n) {
        if e in Members(u, m, id, v, n - 1) {
          var i :| WrittenBy(u, m, id, v, n - 1, i, e);
          assert WrittenBy(u, m, id, v, n, i, e);
        } else {
          assert WrittenBy(u, m, id, v, n, n - 1, e);
        }
      }
      if i :| WrittenBy(u, m, id, v, n, i, e) {
        if i < n - 1 {
          assert WrittenBy(u, m, id, v, n - 1, i, e);
        }
      }
    }
  }

  /** What an object schema asks of a written field's member. */
  ghost predicate FieldAccepted(u: Universe, m: Meta, defs: map<string, ObjectSchema>, o: ObjectSchema, id: string, v: Value, i: nat)
    requires id in u && StructTyped(u, m, id, v) && i < |v.fields|
  {
    var f := u[id].fields[i];
    Written(f, v.fields[i]) && NameOf(f) in o.properties ==>
      Accepts(defs, o.properties[NameOf(f)], Encode(u, m, f.typ, v.fields[i]))
  }

  lemma {:induction false} MembersAccepted(u: Universe, m: Meta, defs: map<string, ObjectSchema>, o: ObjectSchema, id: string,
                                           v: Value)
    requires id in u && StructTyped(u, m, id, v)
    ensures (forall e :: e in Members(u, m, id, v, |v.fields|) && e.name in o.properties ==>
              Accepts(defs, o.properties[e.name], e.value))
       <==> forall i :: 0 <= i < |v.fields| ==> FieldAccepted(u, m, defs, o, id, v, i)
  {
    var n := |v.fields|;
    var ms := Members(u, m, id, v, n);
    if forall i :: 0 <= i < n ==> FieldAccepted(u, m, defs, o, id, v, i) {
      forall e | e in ms && e.name in o.properties ensures Accepts(defs, o.properties[e.name], e.value) {
        MembersExact(u, m, id, v, n, e);
        var i :| WrittenBy(u, m, id, v, n, i, e);
        assert FieldAccepted(u, m, defs, o, id, v, i);
      }
    }
    if forall e :: e in ms && e.name in o.properties ==> Accepts(defs, o.properties[e.name], e.value) {
      forall i | 0 <= i < n ensures FieldAccepted(u, m, defs, o, id, v, i) {
        var f := u[id].fields[i];
        if Written(f, v.fields[i]) {
          var e := Member(NameOf(f), Encode(u, m, f.typ, v.fields[i]));
          assert WrittenBy(u, m, id, v, n, i, e);
          MembersExact(u, m, id, v, n, e);
        }
      }
    }
  }

  /** Everything required is always written. */
  lemma {:induction false} RequiredPresent(u: Universe, m: Meta, id: string, v: Value, name: string)
    requires id in u && StructTyped(u, m, id, v) && ObjectOf(u, m, id).Some? && name in ObjectOf(u, m, id).value.required
    ensures HasMember(Obj(Members(u, m, id, v, |v.fields|)), name)
  {
    var fs, n := u[id].fields, |v.fields|;
    var o := FieldsUpTo(u, m, fs, n).value;
    Sorting.SortBySorts(Sorting.TextKey, o.required);
    Sorting.SameElements(o.required, Sorting.SortBy(Sorting.TextKey, o.required));
    PropertiesAreFields(u, m, fs, n);
    var i :| NamedBy(fs, n, i, name) && !fs[i].omitempty;
    var e := Member(name, Encode(u, m, fs[i].typ, v.fields[i]));
    assert WrittenBy(u, m, id, v, n, i, e);
    MembersExact(u, m, id, v, n, e);
    var ms := Members(u, m, id, v, n);
    var q :| 0 <= q < |ms| && ms[q] == e;
  }

  /** An object schema with the struct's own required list accepts the struct iff it accepts each written field. */
  lemma {:induction false} ObjectByFields(u: Universe, m: Meta, defs: map<string, ObjectSchema>, o: ObjectSchema, id: string, v: Value)
    requires id in u && StructTyped(u, m, id, v) && ObjectOf(u, m, id).Some?
    requires o.required == ObjectOf(u, m, id).value.required
    ensures AcceptsObject(defs, o, Obj(Members(u, m, id, v, |v.fields|)))
       <==> forall i :: 0 <= i < |v.fields| ==> FieldAccepted(u, m, defs, o, id, v, i)
  {
    var ms := Members(u, m, id, v, |v.fields|);
    MembersAccepted(u, m, defs, o, id, v);
    forall name | name in o.required ensures HasMember(Obj(ms), name) {
      RequiredPresent(u, m, id, v, name);
    }
    assert forall e :: e in ms <==> exists i :: 0 <= i < |ms| && ms[i] == e;
  }

  // ---- the schema accepts exactly the safe values

  /** A finished document over a universe whose type keys and JSON names are unambiguous. */
  ghost predicate Ready(u: Universe, m: Meta, defs: map<string, ObjectSchema>, built: map<string, string>) {
    DistinctKeys(u) && DistinctNames(u) && Searching(u, m, defs, {}, built)
  }

  lemma {:induction false} NullFieldExact(u: Universe, m: Meta, defs: map<string, ObjectSchema>, t: Type, omit: bool, v: Value)
    requires HasType(u, m, t, v) && EncodesNull(v) && FieldSchema(u, m, t, omit).Some?
    ensures Accepts(defs, FieldSchema(u, m, t, omit).value, Encode(u, m, t, v)) <==> Safe(u, m, t, omit, v)
  {
    NullEncoding(u, m, t, v);
    NullExact(u, m, defs, t, omit);
  }

  /** For every type, position and value: the encoding validates if and only if the value is safe. */
  lemma {:induction false} FieldExact(u: Universe, m: Meta, defs: map<string, ObjectSchema>, built: map<string, string>,
                                      t: Type, omit: bool, v: Value)
    requires Ready(u, m, defs, built) && HasType(u, m, t, v)
    requires Covered(u, defs, {}, Refs(u, m, t)) && FieldSchema(u, m, t, omit).Some?
    ensures Accepts(defs, FieldSchema(u, m, t, omit).value, Encode(u, m, t, v)) <==> Safe(u, m, t, omit, v)
    decreases v, 1
  {
    if EncodesNull(v) {
      NullFieldExact(u, m, defs, t, omit, v);
    } else if KeyOf(u, t) !in m.overrides {
      match t
      case Pointer(_, _) => PointerExact(u, m, defs, built, t, omit, v);
      case Slice(_, _) => SliceExact(u, m, defs, built, t, omit, v);
      case Dict(_, _, _) => DictExact(u, m, defs, built, t, omit, v);
      case Struct(_) => ReferenceExact(u, m, defs, built, t, omit, v);
      case _ => ScalarExact(u, m, defs, t, omit, v);
    }
  }

  lemma {:induction false} ScalarExact(u: Universe, m: Meta, defs: map<string, ObjectSchema>, t: Type, omit: bool, v: Value)
    requires HasType(u, m, t, v) && (t.Str? || t.Bool? || t.Int? || t.Float? || t.Opaque?) && KeyOf(u, t) !in m.overrides
    requires FieldSchema(u, m, t, omit).Some?
    ensures Accepts(defs, FieldSchema(u, m, t, omit).value, Encode(u, m, t, v)) <==> Safe(u, m, t, omit, v)
  {
    OneType("string", Encode(u, m, t, v));
    OneType("boolean", Encode(u, m, t, v));
    OneType("integer", Encode(u, m, t, v));
    OneType("number", Encode(u, m, t, v));
  }

  lemma {:induction false} ReferenceExact(u: Universe, m: Meta, defs: map<string, ObjectSchema>, built: map<string, string>,
                                          t: Type, omit: bool, v: Value)
    requires Ready(u, m, defs, built) && HasType(u, m, t, v) && t.Struct? && KeyOf(u, t) !in m.overrides
    requires Covered(u, defs, {}, Refs(u, m, t)) && FieldSchema(u, m, t, omit).Some?
    ensures Accepts(defs, FieldSchema(u, m, t, omit).value, Encode(u, m, t, v)) <==> Safe(u, m, t, omit, v)
    decreases v, 0, 2
  {
    CoveredAreDescribed(u, m, defs, built, {t.id});
    RefAccepts(u, m, defs, t.id, Encode(u, m, t, v));
    StructExact(u, m, defs, built, t.id, v);
    assert Encode(u, m, t, v) == Obj(Members(u, m, t.id, v, |v.fields|));
    assert Safe(u, m, t, omit, v) == SafeStruct(u, m, t.id, v);
  }

  /** A reference to a described struct stands for its object schema. */
  lemma {:induction false} RefAccepts(u: Universe, m: Meta, defs: map<string, ObjectSchema>, id: string, j: Json)
    requires Described(u, m, defs, id)
    ensures Accepts(defs, Ref(u[id].key), j) <==> AcceptsObject(defs, ObjectOf(u, m, id).value, j)
  {
  }

  lemma {:induction false} PointerExact(u: Universe, m: Meta, defs: map<string, ObjectSchema>, built: map<string, string>,
                                        t: Type, omit: bool, v: Value)
    requires Ready(u, m, defs, built) && HasType(u, m, t, v) && t.Pointer? && KeyOf(u, t) !in m.overrides && !EncodesNull(v)
    requires Covered(u, defs, {}, Refs(u, m, t)) && FieldSchema(u, m, t, omit).Some?
    ensures Accepts(defs, FieldSchema(u, m, t, omit).value, Encode(u, m, t, v)) <==> Safe(u, m, t, omit, v)
    decreases v, 0
  {
    NullEncoding(u, m, t, v);
    FieldExact(u, m, defs, built, t.elem, true, v.to);
    FieldShape(u, m, t.elem);
    NullableExact(defs, FieldSchema(u, m, t.elem, true).value, Encode(u, m, t, v));
  }

  lemma {:induction false} SliceExact(u: Universe, m: Meta, defs: map<string, ObjectSchema>, built: map<string, string>,
                                      t: Type, omit: bool, v: Value)
    requires Ready(u, m, defs, built) && HasType(u, m, t, v) && t.Slice? && !v.Nil? && KeyOf(u, t) !in m.overrides
    requires Covered(u, defs, {}, Refs(u, m, t)) && FieldSchema(u, m, t, omit).Some?
    ensures Accepts(defs, FieldSchema(u, m, t, omit).value, Encode(u, m, t, v)) <==> Safe(u, m, t, omit, v)
    decreases v, 0
  {
    var j := Encode(u, m, t, v);
    OneType("string", j);
    OneType("array", j);
    TwoTypes("array", "null", j);
    if !IsByte(t.elem) {
      forall i | 0 <= i < |v.elems|
        ensures Accepts(defs, FieldSchema(u, m, t.elem, true).value, j.elems[i]) <==> Safe(u, m, t.elem, true, v.elems[i])
      {
        FieldExact(u, m, defs, built, t.elem, true, v.elems[i]);
      }
    }
  }

  lemma {:induction false} DictExact(u: Universe, m: Meta, defs: map<string, ObjectSchema>, built: map<string, string>,
                                     t: Type, omit: bool, v: Value)
    requires Ready(u, m, defs, built) && HasType(u, m, t, v) && t.Dict? && !v.Nil? && KeyOf(u, t) !in m.overrides
    requires Covered(u, defs, {}, Refs(u, m, t)) && FieldSchema(u, m, t, omit).Some?
    ensures Accepts(defs, FieldSchema(u, m, t, omit).value, Encode(u, m, t, v)) <==> Safe(u, m, t, omit, v)
    decreases v, 0
  {
    var j := Encode(u, m, t, v);
    OneType("object", j);
    TwoTypes("object", "null", j);
    forall i | 0 <= i < |v.entries|
      ensures Accepts(defs, FieldSchema(u, m, t.elem, true).value, j.members[i].value)
         <==> Safe(u, m, t.elem, true, v.entries[i].value)
    {
      FieldExact(u, m, defs, built, t.elem, true, v.entries[i].value);
    }
  }

  lemma {:induction false} StructExact(u: Universe, m: Meta, defs: map<string, ObjectSchema>, built: map<string, string>,
                                       id: string, v: Value)
    requires Ready(u, m, defs, built) && id in u && StructTyped(u, m, id, v)
    requires ObjectOf(u, m, id).Some? && Covered(u, defs, {}, StructRefs(u, m, id))
    ensures AcceptsObject(defs, ObjectOf(u, m, id).value, Obj(Members(u, m, id, v, |v.fields|))) <==> SafeStruct(u, m, id, v)
    decreases v, 0, 1
  {
    var o := ObjectOf(u, m, id).value;
    ObjectByFields(u, m, defs, o, id, v);
    forall i | 0 <= i < |v.fields| ensures FieldAccepted(u, m, defs, o, id, v, i) <==> SafeField(u, m, id, v, i) {
      FieldOfStruct(u, m, defs, built, id, v, i);
    }
  }

  /** One field of a struct; a written field that is not visible has no property and is accepted. */
  lemma {:induction false} FieldOfStruct(u: Universe, m: Meta, defs: map<string, ObjectSchema>, built: map<string, string>,
                                         id: string, v: Value, i: nat)
    requires Ready(u, m, defs, built) && id in u && StructTyped(u, m, id, v) && i < |v.fields|
    requires ObjectOf(u, m, id).Some? && Covered(u, defs, {}, StructRefs(u, m, id))
    ensures FieldAccepted(u, m, defs, ObjectOf(u, m, id).value, id, v, i) <==> SafeField(u, m, id, v, i)
    decreases v, 0, 0
  {
    var fs, n := u[id].fields, |v.fields|;
    var f := fs[i];
    if Written(f, v.fields[i]) {
      if Visible(f) {
        PropertyOfField(u, m, fs, n, i);
        RefsGrow(u, m, fs, i + 1, n);
        FieldExact(u, m, defs, built, f.typ, f.omitempty, v.fields[i]);
      } else {
        HiddenHasNoProperty(u, m, fs, i);
      }
    }
  }

  lemma {:induction false} HiddenHasNoProperty(u: Universe, m: Meta, fs: seq<Field>, i: nat)
    requires NamesDiffer(fs) && i < |fs| && Emitted(fs[i]) && !Visible(fs[i]) && FieldsUpTo(u, m, fs, |fs|).Some?
    ensures NameOf(fs[i]) !in FieldsUpTo(u, m, fs, |fs|).value.properties
  {
    PropertiesAreFields(u, m, fs, |fs|);
    if NameOf(fs[i]) in FieldsUpTo(u, m, fs, |fs|).value.properties {
      var k :| NamedBy(fs, |fs|, k, NameOf(fs[i]));
      assert Emitted(fs[k]);
    }
  }

  // ---- the document

  /** A root field: schemaVersion must name a version of the document's MAJOR, every other field must be safe. */
  predicate SafeRootField(u: Universe, m: Meta, major: string, id: string, v: Value, i: nat)
    requires id in u && StructTyped(u, m, id, v) && i < |v.fields|
  {
    var f := u[id].fields[i];
    if Visible(f) && NameOf(f) == "schemaVersion" then
      !Dropped(f, v.fields[i]) ==>
        var j := Encode(u, m, f.typ, v.fields[i]);
        j.Text? && Major(j.s) == Some(major)
    else SafeField(u, m, id, v, i)
  }

  /** The version pattern accepts exactly the versions of its MAJOR. */
  lemma {:induction false} VersionExact(major: string, s: string)
    requires Digits(major)
    ensures MatchesVersion(major, s) <==> Major(s) == Some(major)
  {
    if MatchesVersion(major, s) {
      assert s == major + "." + s[|major| + 1..];
      MajorExact(major, s[|major| + 1..]);
    }
    if Major(s) == Some(major) {
      CutDotSplits(s);
      var minor := CutDot(s).value.1;
      assert s[..|major|] == major && s[|major| + 1..] == minor;
    }
  }

  lemma {:induction false} CutDotSplits(s: string)
    requires CutDot(s).Some?
    ensures s == CutDot(s).value.0 + "." + CutDot(s).value.1
  {
    if s[0] != '.' {
      CutDotSplits(s[1..]);
      assert s == [s[0]] + s[1..];
    } else {
      assert s == "." + s[1..];
    }
  }

  lemma {:induction false} RootField(u: Universe, m: Meta, root: string, doc: Document, built: map<string, string>, v: Value, i: nat)
    requires IsDocument(u, m, root, doc, built) && Ready(u, m, doc.defs, built) && StructTyped(u, m, root, v) && i < |v.fields|
    ensures FieldAccepted(u, m, doc.defs, doc.root, root, v, i) <==> SafeRootField(u, m, Major(m.version).value, root, v, i)
  {
    var fs, f := u[root].fields, u[root].fields[i];
    var o, major := ObjectOf(u, m, root).value, Major(m.version).value;
    FieldOfStruct(u, m, doc.defs, built, root, v, i);
    if Visible(f) {
      PropertyOfField(u, m, fs, |fs|, i);
    } else if Emitted(f) {
      HiddenHasNoProperty(u, m, fs, i);
    }
    if Visible(f) && NameOf(f) == "schemaVersion" {
      var j := Encode(u, m, f.typ, v.fields[i]);
      if j.Text? {
        VersionExact(major, j.s);
      }
    } else if NameOf(f) in o.properties {
      assert doc.root.properties[NameOf(f)] == o.properties[NameOf(f)] || NameOf(f) == "schemaVersion";
    }
  }

  /**
   Schema soundness and its converse: a value of the root type validates against
   the generated document if and only if every visible written field is safe and
   its schemaVersion, if it has one, is of the document's MAJOR.
   */
  lemma {:induction false} DocumentExact(u: Universe, m: Meta, root: string, doc: Document, built: map<string, string>, v: Value)
    requires IsDocument(u, m, root, doc, built) && Ready(u, m, doc.defs, built) && StructTyped(u, m, root, v)
    ensures AcceptsObject(doc.defs, doc.root, Obj(Members(u, m, root, v, |v.fields|)))
       <==> forall i :: 0 <= i < |v.fields| ==> SafeRootField(u, m, Major(m.version).value, root, v, i)
  {
    ObjectByFields(u, m, doc.defs, doc.root, root, v);
    forall i | 0 <= i < |v.fields|
      ensures FieldAccepted(u, m, doc.defs, doc.root, root, v, i) <==> SafeRootField(u, m, Major(m.version).value, root, v, i)
    {
      RootField(u, m, root, doc, built, v, i);
    }
  }

  // ---- nil

  /** No nil anywhere inside, and every enum value from its enum. */
  predicate Tidy(u: Universe, m: Meta, t: Type, v: Value)
    requires HasType(u, m, t, v)
    decreases v
  {
    if KeyOf(u, t) in m.overrides then LeafOk(m.overrides[KeyOf(u, t)], EnumOf(m, KeyOf(u, t)), v.json) && !v.json.Null?
    else
      match t
      case Str(key) => InEnum(m, key, v.s)
      case Pointer(_, elem) => v.PtrV? && Tidy(u, m, elem, v.to)
      case Slice(_, elem) =>
        !v.Nil? && if IsByte(elem) then v.BytesV? else forall i :: 0 <= i < |v.elems| ==> Tidy(u, m, elem, v.elems[i])
      case Dict(_, index, elem) =>
        !v.Nil? && forall i :: 0 <= i < |v.entries| ==>
          (index.Str? ==> InEnum(m, index.key, v.entries[i].key)) && Tidy(u, m, elem, v.entries[i].value)
      case Struct(id) => v.StructV? && TidyStruct(u, m, id, v)
      case _ => !EncodesNull(v)
  }

  /** A nil field: a pointer not to an enum, a map, or a slice not of bytes. */
  predicate NilField(u: Universe, m: Meta, f: Field) {
    KeyOf(u, f.typ) !in m.overrides
    && ((f.typ.Pointer? && !PinnedByEnum(u, m, f.typ.elem)) || f.typ.Dict? || (f.typ.Slice? && !IsByte(f.typ.elem)))
  }

  /** Each visible field is dropped, nil directly, or tidy. */
  predicate TidyStruct(u: Universe, m: Meta, id: string, v: Value)
    requires id in u && StructTyped(u, m, id, v)
    decreases v, 0
  {
    forall i :: 0 <= i < |v.fields| && Visible(u[id].fields[i]) && !Dropped(u[id].fields[i], v.fields[i]) ==>
      (v.fields[i].Nil? && NilField(u, m, u[id].fields[i])) || Tidy(u, m, u[id].fields[i].typ, v.fields[i])
  }

  lemma {:induction false} TidyIsNotNull(u: Universe, m: Meta, t: Type, v: Value)
    requires HasType(u, m, t, v) && Tidy(u, m, t, v)
    ensures !EncodesNull(v)
  {
    if v.PtrV? {
      TidyIsNotNull(u, m, t.elem, v.to);
    }
  }

  lemma {:induction false} TidyIsSafe(u: Universe, m: Meta, t: Type, omit: bool, v: Value)
    requires HasType(u, m, t, v) && Tidy(u, m, t, v)
    ensures Safe(u, m, t, omit, v)
    decreases v, 1
  {
    TidyIsNotNull(u, m, t, v);
    if KeyOf(u, t) !in m.overrides {
      match t
      case Pointer(_, elem) => TidyIsSafe(u, m, elem, true, v.to);
      case Slice(_, elem) =>
        if !IsByte(elem) {
          forall i | 0 <= i < |v.elems| ensures Safe(u, m, elem, true, v.elems[i]) {
            TidyIsSafe(u, m, elem, true, v.elems[i]);
          }
        }
      case Dict(_, _, elem) =>
        forall i | 0 <= i < |v.entries| ensures Safe(u, m, elem, true, v.entries[i].value) {
          TidyIsSafe(u, m, elem, true, v.entries[i].value);
        }
      case Struct(id) => TidyStructIsSafe(u, m, id, v);
      case _ =>
    }
  }

  lemma {:induction false} TidyStructIsSafe(u: Universe, m: Meta, id: string, v: Value)
    requires id in u && StructTyped(u, m, id, v) && TidyStruct(u, m, id, v)
    ensures SafeStruct(u, m, id, v)
    decreases v, 0
  {
    forall i | 0 <= i < |v.fields| ensures SafeField(u, m, id, v, i) {
      var f := u[id].fields[i];
      if Visible(f) && !Dropped(f, v.fields[i]) && !(v.fields[i].Nil? && NilField(u, m, f)) {
        TidyIsSafe(u, m, f.typ, f.omitempty, v.fields[i]);
      }
    }
  }

  /** The promise itself: a document with nil only directly at field level and a version of its own MAJOR validates. */
  lemma {:induction false} TidyDocumentValidates(u: Universe, m: Meta, root: string, doc: Document, built: map<string, string>,
                                                 v: Value)
    requires IsDocument(u, m, root, doc, built) && Ready(u, m, doc.defs, built) && StructTyped(u, m, root, v)
    requires TidyStruct(u, m, root, v)
    requires forall i :: 0 <= i < |v.fields| && Visible(u[root].fields[i]) && NameOf(u[root].fields[i]) == "schemaVersion" ==>
      SafeRootField(u, m, Major(m.version).value, root, v, i)
    ensures AcceptsObject(doc.defs, doc.root, Obj(Members(u, m, root, v, |v.fields|)))
  {
    TidyStructIsSafe(u, m, root, v);
    DocumentExact(u, m, root, doc, built, v);
    forall i | 0 <= i < |v.fields| ensures SafeRootField(u, m, Major(m.version).value, root, v, i) {
      assert SafeField(u, m, root, v, i);
    }
  }

  /** Element positions are generated as if omitempty, so a nil element is not described: a slice of one nil pointer. */
  lemma {:induction false} NilElementRejected()
    ensures var u: Universe, m, t := map[], Meta("1.0", map[], map[]), Slice("[]*string", Pointer("*string", Str("string")));
      && HasType(u, m, t, SliceV([Nil])) && FieldSchema(u, m, t, false).Some?
      && !Accepts(map[], FieldSchema(u, m, t, false).value, Encode(u, m, t, SliceV([Nil])))
      && Accepts(map[], FieldSchema(u, m, t, false).value, Encode(u, m, t, Nil))
  {
    var u: Universe, m, t := map[], Meta("1.0", map[], map[]), Slice("[]*string", Pointer("*string", Str("string")));
    var v := SliceV([Nil]);
    assert v.elems[0].Nil?;
    assert HasType(u, m, t.elem, Nil);
    FieldExact(u, m, map[], map[], t, false, v);
    FieldExact(u, m, map[], map[], t, false, Nil);
    assert !Safe(u, m, t.elem, true, v.elems[0]);
  }

  // ---- what else the schema accepts

  /** Arbitrary JSON that looks like a value of the type: nothing but null where null is allowed, the kind of the type elsewhere. */
  predicate Shape(u: Universe, m: Meta, t: Type, omit: bool, j: Json)
    decreases j, 2, t
  {
    if j.Null? then NullOk(u, m, t, omit)
    else if KeyOf(u, t) in m.overrides then LeafOk(m.overrides[KeyOf(u, t)], EnumOf(m, KeyOf(u, t)), j)
    else
      match t
      case Str(key) => j.Text? && InEnum(m, key, j.s)
      case Bool(_) => j.Flag?
      case Int(_, _) => j.Num? && j.r == j.r.Floor as real
      case Float(_) => j.Num?
      case Pointer(_, elem) => Shape(u, m, elem, true, j)
      case Slice(_, elem) =>
        if IsByte(elem) then j.Text?
        else j.List? && forall i :: 0 <= i < |j.elems| ==> Shape(u, m, elem, true, j.elems[i])
      case Dict(_, index, elem) =>
        j.Obj? && index.Str? && forall i :: 0 <= i < |j.members| ==>
          InEnum(m, index.key, j.members[i].name) && Shape(u, m, elem, true, j.members[i].value)
      case Struct(id) => id in u && StructShape(u, m, id, j)
      case Opaque(_) => false
  }

  /** An object in which every visible field that is not omitempty occurs, and each occurrence of a visible field has its shape. */
  predicate StructShape(u: Universe, m: Meta, id: string, j: Json)
    requires id in u
    decreases j, 1, Opaque("")
  {
    j.Obj? && forall i :: 0 <= i < |u[id].fields| ==> FieldShaped(u, m, u[id].fields[i], j)
  }

  predicate FieldShaped(u: Universe, m: Meta, f: Field, j: Json)
    requires j.Obj?
    decreases j, 0, Opaque("")
  {
    Visible(f) ==>
      && (!f.omitempty ==> HasMember(j, NameOf(f)))
      && forall k :: 0 <= k < |j.members| && j.members[k].name == NameOf(f) ==> Shape(u, m, f.typ, f.omitempty, j.members[k].value)
  }

  /** The generated schema accepts exactly the JSON of the type's shape: no other kind, no missing field. */
  lemma {:induction false} ShapeExact(u: Universe, m: Meta, defs: map<string, ObjectSchema>, built: map<string, string>,
                                      t: Type, omit: bool, j: Json)
    requires Ready(u, m, defs, built) && Covered(u, defs, {}, Refs(u, m, t)) && FieldSchema(u, m, t, omit).Some?
    ensures Accepts(defs, FieldSchema(u, m, t, omit).value, j) <==> Shape(u, m, t, omit, j)
    decreases j, 3, t
  {
    if j.Null? {
      NullExact(u, m, defs, t, omit);
    } else if KeyOf(u, t) !in m.overrides {
      match t
      case Pointer(_, elem) =>
        ShapeExact(u, m, defs, built, elem, true, j);
        FieldShape(u, m, elem);
        NullableExact(defs, FieldSchema(u, m, elem, true).value, j);
      case Slice(_, _) => SliceShapeExact(u, m, defs, built, t, omit, j);
      case Dict(_, _, _) => DictShapeExact(u, m, defs, built, t, omit, j);
      case Struct(_) => ReferenceShapeExact(u, m, defs, built, t, omit, j);
      case _ => ScalarShapeExact(u, m, defs, t, omit, j);
    }
  }

  lemma {:induction false} ReferenceShapeExact(u: Universe, m: Meta, defs: map<string, ObjectSchema>, built: map<string, string>,
                                               t: Type, omit: bool, j: Json)
    requires Ready(u, m, defs, built) && Covered(u, defs, {}, Refs(u, m, t)) && FieldSchema(u, m, t, omit).Some?
    requires t.Struct? && KeyOf(u, t) !in m.overrides && !j.Null?
    ensures Accepts(defs, FieldSchema(u, m, t, omit).value, j) <==> Shape(u, m, t, omit, j)
    decreases j, 2, t
  {
    CoveredAreDescribed(u, m, defs, built, {t.id});
    RefAccepts(u, m, defs, t.id, j);
    StructShapeExact(u, m, defs, built, t.id, j);
    assert Shape(u, m, t, omit, j) == StructShape(u, m, t.id, j);
  }

  lemma {:induction false} ScalarShapeExact(u: Universe, m: Meta, defs: map<string, ObjectSchema>, t: Type, omit: bool, j: Json)
    requires (t.Str? || t.Bool? || t.Int? || t.Float? || t.Opaque?) && KeyOf(u, t) !in m.overrides && !j.Null?
    requires FieldSchema(u, m, t, omit).Some?
    ensures Accepts(defs, FieldSchema(u, m, t, omit).value, j) <==> Shape(u, m, t, omit, j)
  {
    OneType("string", j);
    OneType("boolean", j);
    OneType("integer", j);
    OneType("number", j);
  }

  lemma {:induction false} SliceShapeExact(u: Universe, m: Meta, defs: map<string, ObjectSchema>, built: map<string, string>,
                                           t: Type, omit: bool, j: Json)
    requires Ready(u, m, defs, built) && Covered(u, defs, {}, Refs(u, m, t)) && FieldSchema(u, m, t, omit).Some?
    requires t.Slice? && KeyOf(u, t) !in m.overrides && !j.Null?
    ensures Accepts(defs, FieldSchema(u, m, t, omit).value, j) <==> Shape(u, m, t, omit, j)
    decreases j, 2, t
  {
    OneType("string", j);
    OneType("array", j);
    TwoTypes("array", "null", j);
    if !IsByte(t.elem) && j.List? {
      forall i | 0 <= i < |j.elems|
        ensures Accepts(defs, FieldSchema(u, m, t.elem, true).value, j.elems[i]) <==> Shape(u, m, t.elem, true, j.elems[i])
      {
        ShapeExact(u, m, defs, built, t.elem, true, j.elems[i]);
      }
    }
  }

  lemma {:induction false} DictShapeExact(u: Universe, m: Meta, defs: map<string, ObjectSchema>, built: map<string, string>,
                                          t: Type, omit: bool, j: Json)
    requires Ready(u, m, defs, built) && Covered(u, defs, {}, Refs(u, m, t)) && FieldSchema(u, m, t, omit).Some?
    requires t.Dict? && KeyOf(u, t) !in m.overrides && !j.Null?
    ensures Accepts(defs, FieldSchema(u, m, t, omit).value, j) <==> Shape(u, m, t, omit, j)
    decreases j, 2, t
  {
    OneType("object", j);
    TwoTypes("object", "null", j);
    if j.Obj? {
      forall i | 0 <= i < |j.members|
        ensures Accepts(defs, FieldSchema(u, m, t.elem, true).value, j.members[i].value)
           <==> Shape(u, m, t.elem, true, j.members[i].value)
      {
        ShapeExact(u, m, defs, built, t.elem, true, j.members[i].value);
      }
    }
  }

  /** What an object schema asks of one visible field, over arbitrary JSON. */
  ghost predicate FieldAsked(u: Universe, m: Meta, defs: map<string, ObjectSchema>, o: ObjectSchema, f: Field, j: Json)
    requires j.Obj?
  {
    Visible(f) ==>
      && (!f.omitempty ==> HasMember(j, NameOf(f)))
      && forall k :: 0 <= k < |j.members| && j.members[k].name == NameOf(f) && NameOf(f) in o.properties ==>
           Accepts(defs, o.properties[NameOf(f)], j.members[k].value)
  }

  /** An object schema asks about its visible fields and nothing else. */
  lemma {:induction false} AsksByFields(u: Universe, m: Meta, defs: map<string, ObjectSchema>, o: ObjectSchema, id: string, j: Json)
    requires id in u && ObjectOf(u, m, id).Some? && j.Obj?
    requires o.required == ObjectOf(u, m, id).value.required && o.properties.Keys == ObjectOf(u, m, id).value.properties.Keys
    ensures AcceptsObject(defs, o, j) <==> forall i :: 0 <= i < |u[id].fields| ==> FieldAsked(u, m, defs, o, u[id].fields[i], j)
  {
    var fs, n := u[id].fields, |u[id].fields|;
    var plain := FieldsUpTo(u, m, fs, n).value;
    PropertiesAreFields(u, m, fs, n);
    Sorting.SortBySorts(Sorting.TextKey, plain.required);
    Sorting.SameElements(plain.required, o.required);
    if AcceptsObject(defs, o, j) {
      forall i | 0 <= i < n ensures FieldAsked(u, m, defs, o, fs[i], j) {
        if Visible(fs[i]) && !fs[i].omitempty {
          RequiredOfField(u, m, fs, n, i);
        }
      }
    }
    if forall i :: 0 <= i < n ==> FieldAsked(u, m, defs, o, fs[i], j) {
      forall k | 0 <= k < |j.members| && j.members[k].name in o.properties
        ensures Accepts(defs, o.properties[j.members[k].name], j.members[k].value)
      {
        var i :| NamedBy(fs, n, i, j.members[k].name);
        assert FieldAsked(u, m, defs, o, fs[i], j);
      }
      forall name | name in o.required ensures HasMember(j, name) {
        var i :| NamedBy(fs, n, i, name) && !fs[i].omitempty;
        assert FieldAsked(u, m, defs, o, fs[i], j);
      }
    }
  }

  lemma {:induction false} StructShapeExact(u: Universe, m: Meta, defs: map<string, ObjectSchema>, built: map<string, string>,
                                            id: string, j: Json)
    requires Ready(u, m, defs, built) && id in u && ObjectOf(u, m, id).Some? && Covered(u, defs, {}, StructRefs(u, m, id))
    ensures AcceptsObject(defs, ObjectOf(u, m, id).value, j) <==> StructShape(u, m, id, j)
    decreases j, 1, Opaque("")
  {
    if j.Obj? {
      var o := ObjectOf(u, m, id).value;
      AsksByFields(u, m, defs, o, id, j);
      forall i | 0 <= i < |u[id].fields|
        ensures FieldAsked(u, m, defs, o, u[id].fields[i], j) <==> FieldShaped(u, m, u[id].fields[i], j)
      {
        FieldShapeExact(u, m, defs, built, id, i, j);
      }
    }
  }

  lemma {:induction false} FieldShapeExact(u: Universe, m: Meta, defs: map<string, ObjectSchema>, built: map<string, string>,
                                           id: string, i: nat, j: Json)
    requires Ready(u, m, defs, built) && id in u && ObjectOf(u, m, id).Some? && Covered(u, defs, {}, StructRefs(u, m, id))
    requires j.Obj? && i < |u[id].fields|
    ensures FieldAsked(u, m, defs, ObjectOf(u, m, id).value, u[id].fields[i], j) <==> FieldShaped(u, m, u[id].fields[i], j)
    decreases j, 0, Opaque("")
  {
    var fs := u[id].fields;
    var f := fs[i];
    if Visible(f) {
      PropertyOfField(u, m, fs, |fs|, i);
      RefsGrow(u, m, fs, i + 1, |fs|);
      var s := FieldSchema(u, m, f.typ, f.omitempty).value;
      forall k | 0 <= k < |j.members|
        ensures Accepts(defs, s, j.members[k].value) <==> Shape(u, m, f.typ, f.omitempty, j.members[k].value)
      {
        ShapeExact(u, m, defs, built, f.typ, f.omitempty, j.members[k].value);
      }
    }
  }

  /** A root field over arbitrary JSON: a schemaVersion of the document's MAJOR, the field's own shape otherwise. */
  predicate RootFieldShaped(u: Universe, m: Meta, major: string, f: Field, j: Json)
    requires j.Obj?
  {
    if Visible(f) && NameOf(f) == "schemaVersion" then
      && (!f.omitempty ==> HasMember(j, "schemaVersion"))
      && forall k :: 0 <= k < |j.members| && j.members[k].name == "schemaVersion" ==>
           j.members[k].value.Text? && Major(j.members[k].value.s) == Some(major)
    else FieldShaped(u, m, f, j)
  }

  /** Over all JSON: a document accepts exactly the objects whose visible fields are present as required and have their shapes. */
  lemma {:induction false} DocumentShape(u: Universe, m: Meta, root: string, doc: Document, built: map<string, string>, j: Json)
    requires IsDocument(u, m, root, doc, built) && Ready(u, m, doc.defs, built)
    ensures AcceptsObject(doc.defs, doc.root, j) <==>
      j.Obj? && forall i :: 0 <= i < |u[root].fields| ==> RootFieldShaped(u, m, Major(m.version).value, u[root].fields[i], j)
  {
    if j.Obj? {
      AsksByFields(u, m, doc.defs, doc.root, root, j);
      forall i | 0 <= i < |u[root].fields|
        ensures FieldAsked(u, m, doc.defs, doc.root, u[root].fields[i], j)
           <==> RootFieldShaped(u, m, Major(m.version).value, u[root].fields[i], j)
      {
        RootFieldAsked(u, m, root, doc, built, i, j);
      }
    }
  }

  lemma {:induction false} RootFieldAsked(u: Universe, m: Meta, root: string, doc: Document, built: map<string, string>, i: nat, j: Json)
    requires IsDocument(u, m, root, doc, built) && Ready(u, m, doc.defs, built) && j.Obj? && i < |u[root].fields|
    ensures FieldAsked(u, m, doc.defs, doc.root, u[root].fields[i], j)
       <==> RootFieldShaped(u, m, Major(m.version).value, u[root].fields[i], j)
  {
    var f, major := u[root].fields[i], Major(m.version).value;
    FieldShapeExact(u, m, doc.defs, built, root, i, j);
    if Visible(f) {
      PropertyOfField(u, m, u[root].fields, |u[root].fields|, i);
      if NameOf(f) == "schemaVersion" {
        forall k | 0 <= k < |j.members| && j.members[k].value.Text?
          ensures MatchesVersion(major, j.members[k].value.s) <==> Major(j.members[k].value.s) == Some(major)
        {
          VersionExact(major, j.members[k].value.s);
        }
      }
    }
  }

  // ---- accepted JSON is an encoding

  /** No struct inside: unknown members make a struct's schema accept more than its encodings. */
  predicate StructFree(u: Universe, m: Meta, t: Type) {
    KeyOf(u, t) in m.overrides ||
    match t
    case Pointer(_, elem) => StructFree(u, m, elem)
    case Slice(_, elem) => StructFree(u, m, elem) && (IsByte(elem) ==> elem.key !in m.overrides)
    case Dict(_, _, elem) => StructFree(u, m, elem)
    case Struct(_) => false
    case _ => true
  }

  /** A value that encodes to the JSON. */
  function ValueOf(u: Universe, m: Meta, t: Type, omit: bool, j: Json): (v: Value)
    decreases j, t
  {
    if KeyOf(u, t) in m.overrides then Custom(j, false)
    else
      match t
      case Pointer(_, elem) => if j.Null? && !omit then Nil else PtrV(ValueOf(u, m, elem, true, j))
      case Slice(_, elem) =>
        if IsByte(elem) && j.Text? then BytesV(j.s)
        else if j.List? then SliceV(seq(|j.elems|, i requires 0 <= i < |j.elems| => ValueOf(u, m, elem, true, j.elems[i])))
        else Nil
      case Dict(_, _, elem) =>
        if j.Obj? then
          DictV(seq(|j.members|, i requires 0 <= i < |j.members| =>
            DictEntry(j.members[i].name, ValueOf(u, m, elem, true, j.members[i].value))))
        else Nil
      case _ =>
        (match j case Text(s) => StrV(s) case Flag(b) => BoolV(b) case Num(r) => if t.Int? then IntV(r.Floor) else FloatV(r) case _ => Nil)
  }

  /** JSON of the shape of a struct-free type is the encoding of a value of the type. */
  lemma {:induction false} ShapeIsEncoded(u: Universe, m: Meta, t: Type, omit: bool, j: Json)
    requires Shape(u, m, t, omit, j) && StructFree(u, m, t)
    ensures HasType(u, m, t, ValueOf(u, m, t, omit, j)) && Encode(u, m, t, ValueOf(u, m, t, omit, j)) == j
    decreases j, t
  {
    if KeyOf(u, t) !in m.overrides {
      match t
      case Pointer(_, elem) =>
        if !(j.Null? && !omit) {
          ShapeIsEncoded(u, m, elem, true, j);
        }
      case Slice(_, elem) =>
        if j.List? {
          SliceIsEncoded(u, m, t, omit, j);
        }
      case Dict(_, _, elem) =>
        if j.Obj? {
          DictIsEncoded(u, m, t, omit, j);
        }
      case _ =>
    }
  }

  lemma {:induction false} SliceIsEncoded(u: Universe, m: Meta, t: Type, omit: bool, j: Json)
    requires Shape(u, m, t, omit, j) && StructFree(u, m, t) && t.Slice? && j.List? && KeyOf(u, t) !in m.overrides
    ensures HasType(u, m, t, ValueOf(u, m, t, omit, j)) && Encode(u, m, t, ValueOf(u, m, t, omit, j)) == j
    decreases j, t, 0
  {
    var v := ValueOf(u, m, t, omit, j);
    forall i | 0 <= i < |j.elems| ensures HasType(u, m, t.elem, v.elems[i]) && Encode(u, m, t.elem, v.elems[i]) == j.elems[i] {
      ShapeIsEncoded(u, m, t.elem, true, j.elems[i]);
    }
    assert Encode(u, m, t, v).elems == j.elems;
  }

  lemma {:induction false} DictIsEncoded(u: Universe, m: Meta, t: Type, omit: bool, j: Json)
    requires Shape(u, m, t, omit, j) && StructFree(u, m, t) && t.Dict? && j.Obj? && KeyOf(u, t) !in m.overrides
    ensures HasType(u, m, t, ValueOf(u, m, t, omit, j)) && Encode(u, m, t, ValueOf(u, m, t, omit, j)) == j
    decreases j, t, 0
  {
    var v := ValueOf(u, m, t, omit, j);
    forall i | 0 <= i < |j.members|
      ensures HasType(u, m, t.elem, v.entries[i].value)
      ensures Member(v.entries[i].key, Encode(u, m, t.elem, v.entries[i].value)) == j.members[i]
    {
      ShapeIsEncoded(u, m, t.elem, true, j.members[i].value);
    }
    assert Encode(u, m, t, v).members == j.members;
  }

  // ---- why type keys must be distinct

  /** Field i of one struct is always written, under a name the other struct never writes. */
  ghost predicate OnlyIn(u: Universe, id: string, other: string, i: int)
    requires id in u && other in u
  {
    && 0 <= i < |u[id].fields| && Visible(u[id].fields[i]) && !u[id].fields[i].omitempty
    && forall j :: 0 <= j < |u[other].fields| && Emitted(u[other].fields[j]) ==> NameOf(u[other].fields[j]) != NameOf(u[id].fields[i])
  }

  /** The root always writes a struct of this type at field i. */
  ghost predicate Holds(u: Universe, root: string, id: string, i: int)
    requires root in u
  {
    && 0 <= i < |u[root].fields| && u[root].fields[i].typ == Struct(id)
    && Visible(u[root].fields[i]) && !u[root].fields[i].omitempty && NameOf(u[root].fields[i]) != "schemaVersion"
  }

  /** Two structs share a type key although each writes a field the other does not, and the root holds one of each. */
  ghost predicate Collide(u: Universe, root: string, a: string, b: string) {
    && a in u && b in u && root in u && NamesDiffer(u[root].fields) && u[a].key == u[b].key
    && (forall id :: id in u && u[id].key == u[a].key ==> id == a || id == b)
    && (exists i :: OnlyIn(u, a, b, i)) && (exists i :: OnlyIn(u, b, a, i))
    && (exists i :: Holds(u, root, a, i)) && (exists i :: Holds(u, root, b, i))
  }

  /** One struct's schema rejects every value of a struct that lacks one of its fields. */
  lemma {:induction false} WrongStruct(u: Universe, m: Meta, defs: map<string, ObjectSchema>, id: string, other: string, v: Value, i: nat)
    requires id in u && other in u && OnlyIn(u, id, other, i) && ObjectOf(u, m, id).Some? && StructTyped(u, m, other, v)
    ensures !AcceptsObject(defs, ObjectOf(u, m, id).value, Obj(Members(u, m, other, v, |v.fields|)))
  {
    var fs, n := u[id].fields, |u[id].fields|;
    var name, o := NameOf(fs[i]), FieldsUpTo(u, m, fs, n).value;
    RequiredOfField(u, m, fs, n, i);
    Sorting.SortBySorts(Sorting.TextKey, o.required);
    Sorting.SameElements(o.required, Sorting.SortBy(Sorting.TextKey, o.required));
    NeverWritten(u, m, other, v, name);
  }

  lemma {:induction false} NeverWritten(u: Universe, m: Meta, id: string, v: Value, name: string)
    requires id in u && StructTyped(u, m, id, v)
    requires forall j :: 0 <= j < |u[id].fields| && Emitted(u[id].fields[j]) ==> NameOf(u[id].fields[j]) != name
    ensures !HasMember(Obj(Members(u, m, id, v, |v.fields|)), name)
  {
    var ms := Members(u, m, id, v, |v.fields|);
    forall q | 0 <= q < |ms| ensures ms[q].name != name {
      MembersExact(u, m, id, v, |v.fields|, ms[q]);
      assert ms[q] in ms;
      var i :| WrittenBy(u, m, id, v, |v.fields|, i, ms[q]);
    }
  }

  /** A reference accepts what its definition accepts. */
  lemma {:induction false} RefUnder(defs: map<string, ObjectSchema>, k: string, j: Json)
    ensures Accepts(defs, Ref(k), j) <==> k in defs && AcceptsObject(defs, defs[k], j)
  {
  }

  /** The definition of one struct rejects the values of another that lacks one of its fields. */
  lemma {:induction false} RejectedUnder(u: Universe, m: Meta, defs: map<string, ObjectSchema>, k: string, id: string, other: string, v: Value)
    requires id in u && other in u && k in defs && ObjectOf(u, m, id) == Some(defs[k]) && StructTyped(u, m, other, v)
    requires exists i :: OnlyIn(u, id, other, i)
    ensures !Accepts(defs, Ref(k), Obj(Members(u, m, other, v, |v.fields|)))
  {
    var i :| OnlyIn(u, id, other, i);
    WrongStruct(u, m, defs, id, other, v, i);
    RefUnder(defs, k, Obj(Members(u, m, other, v, |v.fields|)));
  }

  /** Whichever of the two structs a document describes under their key, the other one's values are rejected. */
  lemma {:induction false} OneIsRejected(u: Universe, m: Meta, root: string, a: string, b: string,
                                         defs: map<string, ObjectSchema>, built: map<string, string>, x: Value, y: Value)
    requires Collide(u, root, a, b) && Searching(u, m, defs, {}, built) && StructTyped(u, m, a, x) && StructTyped(u, m, b, y)
    ensures !Accepts(defs, Ref(u[a].key), Obj(Members(u, m, a, x, |x.fields|)))
         || !Accepts(defs, Ref(u[a].key), Obj(Members(u, m, b, y, |y.fields|)))
  {
    var key := u[a].key;
    RefUnder(defs, key, Obj(Members(u, m, a, x, |x.fields|)));
    if key in defs {
      assert Entry(u, m, defs, {}, key, built[key]);
      if built[key] == a {
        RejectedUnder(u, m, defs, key, a, b, y);
      } else {
        RejectedUnder(u, m, defs, key, b, a, x);
      }
    }
  }

  /** A field that is no schemaVersion: its member has to be accepted by the field's own schema. */
  lemma {:induction false} RootMember(u: Universe, m: Meta, root: string, doc: Document, built: map<string, string>, v: Value, i: nat)
    requires IsDocument(u, m, root, doc, built) && StructTyped(u, m, root, v) && i < |v.fields| && NamesDiffer(u[root].fields)
    requires Visible(u[root].fields[i]) && !u[root].fields[i].omitempty && NameOf(u[root].fields[i]) != "schemaVersion"
    requires AcceptsObject(doc.defs, doc.root, Obj(Members(u, m, root, v, |v.fields|)))
    ensures var f := u[root].fields[i];
      FieldSchema(u, m, f.typ, false).Some? && Accepts(doc.defs, FieldSchema(u, m, f.typ, false).value, Encode(u, m, f.typ, v.fields[i]))
  {
    var fs := u[root].fields;
    PropertyOfField(u, m, fs, |fs|, i);
    var e := Member(NameOf(fs[i]), Encode(u, m, fs[i].typ, v.fields[i]));
    assert WrittenBy(u, m, root, v, |fs|, i, e);
    MembersExact(u, m, root, v, |fs|, e);
    var ms := Members(u, m, root, v, |fs|);
    var q :| 0 <= q < |ms| && ms[q] == e;
  }

  /** The struct the root holds at field i has to be accepted under its key. */
  lemma {:induction false} HeldMember(u: Universe, m: Meta, root: string, doc: Document, built: map<string, string>, v: Value, i: nat,
                                      id: string)
    requires IsDocument(u, m, root, doc, built) && StructTyped(u, m, root, v) && NamesDiffer(u[root].fields)
    requires id in u && u[id].key !in m.overrides && Holds(u, root, id, i)
    requires AcceptsObject(doc.defs, doc.root, Obj(Members(u, m, root, v, |v.fields|)))
    ensures StructTyped(u, m, id, v.fields[i])
    ensures Accepts(doc.defs, Ref(u[id].key), Obj(Members(u, m, id, v.fields[i], |v.fields[i].fields|)))
  {
    RootMember(u, m, root, doc, built, v, i);
    assert HasType(u, m, Struct(id), v.fields[i]);
  }

  /** Every document of colliding types rejects every value of its root. */
  lemma {:induction false} CollidingKeysMisdescribe(u: Universe, m: Meta, root: string, a: string, b: string, doc: Document,
                                                    built: map<string, string>, v: Value)
    requires Collide(u, root, a, b) && u[a].key !in m.overrides && IsDocument(u, m, root, doc, built) && StructTyped(u, m, root, v)
    ensures !AcceptsObject(doc.defs, doc.root, Obj(Members(u, m, root, v, |v.fields|)))
  {
    if AcceptsObject(doc.defs, doc.root, Obj(Members(u, m, root, v, |v.fields|))) {
      var i :| Holds(u, root, a, i);
      var j :| Holds(u, root, b, j);
      HeldMember(u, m, root, doc, built, v, i, a);
      HeldMember(u, m, root, doc, built, v, j, b);
      OneIsRejected(u, m, root, a, b, doc.defs, built, v.fields[i], v.fields[j]);
    }
  }

  function Plain(name: string, t: Type): (f: Field) { Field(name, false, name, false, false, true, t) }

  const COLLIDING: Universe := map[
    "a/x.T" := StructDecl("x.T", true, [Plain("a", Str("string"))]),
    "b/x.T" := StructDecl("x.T", true, [Plain("b", Str("string"))]),
    "R" := StructDecl("m.R", true, [Plain("p", Struct("a/x.T")), Plain("q", Struct("b/x.T"))])]

  /** Packages a/x and b/x that both declare a type T give such types. */
  lemma {:induction false} CollisionsExist()
    ensures Collide(COLLIDING, "R", "a/x.T", "b/x.T")
  {
    assert COLLIDING["R"].key != "x.T";
    assert OnlyIn(COLLIDING, "a/x.T", "b/x.T", 0) && OnlyIn(COLLIDING, "b/x.T", "a/x.T", 0);
    assert Holds(COLLIDING, "R", "a/x.T", 0) && Holds(COLLIDING, "R", "b/x.T", 1);
  }
}
