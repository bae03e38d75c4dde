/**
 internal/jsonschema/jsonschema.go: a Go type rendered as a JSON Schema draft
 2020-12 document.  A type is an expression in which structs occur by identity; a
 universe gives each struct its fields, so struct graphs may be recursive.
 */
module JsonSchema {
  import opened Basics
  import opened Sorting

  // ---- Go types

  /** A reflect.Type: `key` is its TypeKey.  Int's `byte` marks the kind Uint8; Opaque is any kind without a rule. */
  datatype Type =
    | Str(key: string)
    | Bool(key: string)
    | Int(key: string, byte: bool)
    | Float(key: string)
    | Pointer(key: string, elem: Type)
    | Slice(key: string, elem: Type)
    | Dict(key: string, index: Type, elem: Type)
    | Struct(id: string)
    | Opaque(key: string)

  /** A struct field with its parsed json tag: `-`, a name ("" when none), the omitempty option. */
  datatype Field = Field(goName: string, skip: bool, tagName: string, omitempty: bool, embedded: bool, exported: bool, typ: Type)

  datatype StructDecl = StructDecl(key: string, named: bool, fields: seq<Field>)

  type Universe = map<string, StructDecl>

  /** What reflection cannot see: value sets of enum types, and the "type" keyword of types that marshal themselves. */
  datatype Meta = Meta(version: string, enums: map<string, seq<string>>, overrides: map<string, seq<string>>)

  function KeyOf(u: Universe, t: Type): (k: string) {
    if t.Struct? then (if t.id in u then u[t.id].key else "") else t.key
  }

  function NameOf(f: Field): (n: string) { if f.tagName == "" then f.goName else f.tagName }

  /** An embedded field that encoding/json would flatten. */
  predicate Flattened(f: Field) { !f.skip && f.embedded && f.tagName == "" }

  predicate Visible(f: Field) { !f.skip && f.exported }

  predicate IsByte(t: Type) { t.Int? && t.byte }

  // ---- schemas

  /** The keyword combinations the generator emits; an empty `types` means no "type" keyword. */
  datatype Schema =
    | Leaf(types: seq<string>, enum: Option<seq<string>>)
    | Array(types: seq<string>, items: Schema)
    | Properties(types: seq<string>, names: Option<seq<string>>, values: Schema)
    | Ref(target: string)
    | AnyOf(first: Schema, second: Schema)
    | Version(major: string)

  /** An inline object schema. */
  datatype ObjectSchema = ObjectSchema(properties: map<string, Schema>, required: seq<string>)

  datatype Document = Document(root: ObjectSchema, defs: map<string, ObjectSchema>)

  function Nullable(s: Schema): (r: Schema) {
    match s
    case Leaf(types, enum) => if types != [] then Leaf(types + ["null"], enum) else AnyOf(s, Leaf(["null"], None))
    case Array(types, items) => Array(types + ["null"], items)
    case Properties(types, names, values) => Properties(types + ["null"], names, values)
    case _ => AnyOf(s, Leaf(["null"], None))
  }

  function EnumOf(m: Meta, key: string): (e: Option<seq<string>>) {
    if key in m.enums then Some(m.enums[key]) else None
  }

  /** generator.field, apart from the registration of the structs it refers to. */
  function FieldSchema(u: Universe, m: Meta, t: Type, omit: bool): (s: Option<Schema>) {
    var key := KeyOf(u, t);
    if key in m.overrides then Some(Leaf(m.overrides[key], EnumOf(m, key)))
    else
      match t
      case Str(_) => Some(Leaf(["string"], EnumOf(m, key)))
      case Bool(_) => Some(Leaf(["boolean"], None))
      case Int(_, _) => Some(Leaf(["integer"], None))
      case Float(_) => Some(Leaf(["number"], None))
      case Pointer(_, elem) =>
        (match FieldSchema(u, m, elem, true)
         case None => None
         case Some(s) => Some(if omit then s else Nullable(s)))
      case Slice(_, elem) =>
        if IsByte(elem) then Some(Leaf(["string"], None))
        else
          (match FieldSchema(u, m, elem, true)
           case None => None
           case Some(s) => Some(Array(if omit then ["array"] else ["array", "null"], s)))
      case Dict(_, index, elem) =>
        if !index.Str? then None
        else
          (match FieldSchema(u, m, elem, true)
           case None => None
           case Some(s) => Some(Properties(if omit then ["object"] else ["object", "null"], EnumOf(m, index.key), s)))
      case Struct(id) => if id in u && u[id].named then Some(Ref(u[id].key)) else None
      case Opaque(_) => None
  }

  /** The object schema of the first n fields, `required` in field order. */
  function FieldsUpTo(u: Universe, m: Meta, fs: seq<Field>, n: nat): (o: Option<ObjectSchema>)
    requires n <= |fs|
  {
    if n == 0 then Some(ObjectSchema(map[], []))
    else
      match FieldsUpTo(u, m, fs, n - 1)
      case None => None
      case Some(o) => WithField(u, m, o, fs[n - 1])
  }

  function WithField(u: Universe, m: Meta, o: ObjectSchema, f: Field): (o': Option<ObjectSchema>) {
    if Flattened(f) then None
    else if !Visible(f) then Some(o)
    else
      match FieldSchema(u, m, f.typ, f.omitempty)
      case None => None
      case Some(s) =>
        Some(ObjectSchema(o.properties[NameOf(f) := s], if f.omitempty then o.required else o.required + [NameOf(f)]))
  }

  function SortRequired(o: ObjectSchema): (o': ObjectSchema) { o.(required := SortBy(TextKey, o.required)) }

  /** generator.object, apart from the registration of the structs it refers to. */
  function ObjectOf(u: Universe, m: Meta, id: string): (o: Option<ObjectSchema>)
    requires id in u
  {
    match FieldsUpTo(u, m, u[id].fields, |u[id].fields|)
    case None => None
    case Some(o) => Some(SortRequired(o))
  }

  // ---- struct references

  /** The structs a type refers to. */
  function Refs(u: Universe, m: Meta, t: Type): (ids: set<string>) {
    if KeyOf(u, t) in m.overrides then {}
    else
      match t
      case Pointer(_, elem) => Refs(u, m, elem)
      case Slice(_, elem) => if IsByte(elem) then {} else Refs(u, m, elem)
      case Dict(_, index, elem) => if !index.Str? then {} else Refs(u, m, elem)
      case Struct(id) => {id}
      case _ => {}
  }

  function RefsUpTo(u: Universe, m: Meta, fs: seq<Field>, n: nat): (ids: set<string>)
    requires n <= |fs|
  {
    if n == 0 then {}
    else RefsUpTo(u, m, fs, n - 1) + (if Visible(fs[n - 1]) then Refs(u, m, fs[n - 1].typ) else {})
  }

  function StructRefs(u: Universe, m: Meta, id: string): (ids: set<string>)
    requires id in u
  {
    RefsUpTo(u, m, u[id].fields, |u[id].fields|)
  }

  /** Every struct referred to is declared. */
  ghost predicate Closed(u: Universe, m: Meta) {
    forall id :: id in u ==> StructRefs(u, m, id) <= u.Keys
  }

  /** Some struct reachable in at most n steps cannot be described. */
  ghost predicate BrokenWithin(u: Universe, m: Meta, id: string, n: nat)
    decreases n
  {
    id in u && (ObjectOf(u, m, id).None? || (n > 0 && exists x :: x in StructRefs(u, m, id) && BrokenWithin(u, m, x, n - 1)))
  }

  ghost predicate Broken(u: Universe, m: Meta, id: string) { exists n: nat :: BrokenWithin(u, m, id, n) }

  /** A type that cannot be described, itself or through a struct it refers to. */
  ghost predicate BrokenType(u: Universe, m: Meta, t: Type) {
    FieldSchema(u, m, t, true).None? || exists x :: x in Refs(u, m, t) && Broken(u, m, x)
  }

  lemma {:induction false} BrokenByRef(u: Universe, m: Meta, id: string, x: string)
    requires id in u && x in StructRefs(u, m, id) && Broken(u, m, x)
    ensures Broken(u, m, id)
  {
    var n: nat :| BrokenWithin(u, m, x, n);
    assert BrokenWithin(u, m, id, n + 1);
  }

  /** Whether a type can be described does not depend on omitempty. */
  lemma {:induction false} OmitIrrelevant(u: Universe, m: Meta, t: Type)
    ensures FieldSchema(u, m, t, true).None? <==> FieldSchema(u, m, t, false).None?
  {
  }

  lemma {:induction false} RefsGrow(u: Universe, m: Meta, fs: seq<Field>, i: nat, n: nat)
    requires i <= n <= |fs|
    ensures RefsUpTo(u, m, fs, i) <= RefsUpTo(u, m, fs, n)
  {
    if i < n {
      RefsGrow(u, m, fs, i, n - 1);
    }
  }

  lemma {:induction false} FailureStays(u: Universe, m: Meta, fs: seq<Field>, i: nat, n: nat)
    requires i <= n <= |fs| && FieldsUpTo(u, m, fs, i).None?
    ensures FieldsUpTo(u, m, fs, n).None?
  {
    if i < n {
      FailureStays(u, m, fs, i, n - 1);
    }
  }

  /** A field that breaks its struct. */
  lemma {:induction false} BrokenByField(u: Universe, m: Meta, id: string, i: nat)
    requires id in u && i < |u[id].fields|
    requires var f := u[id].fields[i]; Flattened(f) || (Visible(f) && BrokenType(u, m, f.typ))
    ensures Broken(u, m, id)
  {
    var fs := u[id].fields;
    var f := fs[i];
    OmitIrrelevant(u, m, f.typ);
    if Flattened(f) || FieldSchema(u, m, f.typ, f.omitempty).None? {
      FailureStays(u, m, fs, i + 1, |fs|);
      assert BrokenWithin(u, m, id, 0);
    } else {
      var x :| x in Refs(u, m, f.typ) && Broken(u, m, x);
      RefsGrow(u, m, fs, i + 1, |fs|);
      BrokenByRef(u, m, id, x);
    }
  }

  /** A struct referred to by the root, directly or through at most n further structs. */
  ghost predicate ReachedWithin(u: Universe, m: Meta, root: string, id: string, n: nat)
    requires root in u
    decreases n
  {
    id in StructRefs(u, m, root)
    || (n > 0 && exists x :: x in u && ReachedWithin(u, m, root, x, n - 1) && id in StructRefs(u, m, x))
  }

  ghost predicate Reached(u: Universe, m: Meta, root: string, id: string)
    requires root in u
  {
    exists n: nat :: ReachedWithin(u, m, root, id, n)
  }

  ghost predicate AllReached(u: Universe, m: Meta, root: string, ids: set<string>)
    requires root in u
  {
    forall id :: id in ids ==> Reached(u, m, root, id)
  }

  lemma {:induction false} RefsReached(u: Universe, m: Meta, root: string, id: string)
    requires root in u && id in u && (id == root || Reached(u, m, root, id))
    ensures AllReached(u, m, root, StructRefs(u, m, id))
  {
    forall x | x in StructRefs(u, m, id) ensures Reached(u, m, root, x) {
      if id == root {
        assert ReachedWithin(u, m, root, x, 0);
      } else {
        var n: nat :| ReachedWithin(u, m, root, id, n);
        assert ReachedWithin(u, m, root, x, n + 1);
      }
    }
  }

  // ---- the search invariant

  /** Every one of these structs is registered, or being built further up. */
  ghost predicate Covered(u: Universe, defs: map<string, ObjectSchema>, open: set<string>, ids: set<string>) {
    forall id :: id in ids ==> id in u && u[id].named && (u[id].key in defs || u[id].key in open)
  }

  /** A finished entry: the object schema of the struct it was built from, whose references are covered. */
  ghost predicate Entry(u: Universe, m: Meta, defs: map<string, ObjectSchema>, open: set<string>, k: string, id: string) {
    && k in defs && id in u && u[id].named && u[id].key == k
    && ObjectOf(u, m, id) == Some(defs[k]) && Covered(u, defs, open, StructRefs(u, m, id))
  }

  /** Open (grey) keys are not finished; finished (black) entries refer to open or finished ones only. */
  ghost predicate Searching(u: Universe, m: Meta, defs: map<string, ObjectSchema>, open: set<string>, built: map<string, string>) {
    && defs.Keys !! open && built.Keys == defs.Keys
    && forall k {:trigger built[k]} :: k in defs ==> Entry(u, m, defs, open, k, built[k])
  }

  /** Only structs reachable from the root are registered. */
  ghost predicate Found(u: Universe, m: Meta, root: string, built: map<string, string>)
    requires root in u
  {
    forall k {:trigger built[k]} :: k in built ==> Reached(u, m, root, built[k])
  }

  ghost predicate Grows(a: map<string, ObjectSchema>, b: map<string, ObjectSchema>) {
    forall k :: k in a ==> k in b && b[k] == a[k]
  }

  /** The struct keys not yet met. */
  ghost function Unmet(u: Universe, defs: map<string, ObjectSchema>, open: set<string>): (s: set<string>) {
    (set id | id in u :: u[id].key) - defs.Keys - open
  }

  lemma {:induction false} FewerUnmet(small: set<string>, large: set<string>)
    requires small <= large
    ensures |small| <= |large| && (small != large ==> |small| < |large|)
  {
    if small != large {
      var k :| k in large && k !in small;
      FewerUnmet(small, large - {k});
    } else {
      assert |small| == |large|;
    }
  }

  lemma {:induction false} UnmetShrinks(u: Universe, defs: map<string, ObjectSchema>, open: set<string>,
                                        defs': map<string, ObjectSchema>)
    requires Grows(defs, defs')
    ensures |Unmet(u, defs', open)| <= |Unmet(u, defs, open)|
  {
    FewerUnmet(Unmet(u, defs', open), Unmet(u, defs, open));
  }

  function Depth(t: Type): (n: nat) {
    match t
    case Pointer(_, e) => Depth(e) + 1
    case Slice(_, e) => Depth(e) + 1
    case Dict(_, _, e) => Depth(e) + 1
    case _ => 0
  }

  lemma {:induction false} CoveredStays(u: Universe, defs: map<string, ObjectSchema>, defs': map<string, ObjectSchema>,
                                        open: set<string>, ids: set<string>)
    requires Covered(u, defs, open, ids) && Grows(defs, defs')
    ensures Covered(u, defs', open, ids)
  {
  }

  lemma {:induction false} CoveredClosed(u: Universe, defs: map<string, ObjectSchema>, open: set<string>, k: string,
                                         o: ObjectSchema, ids: set<string>)
    requires Covered(u, defs, open + {k}, ids)
    ensures Covered(u, defs[k := o], open, ids)
  {
  }

  /** Finishing a struct turns its key from open to finished. */
  lemma {:induction false} Finish(u: Universe, m: Meta, defs0: map<string, ObjectSchema>, defs: map<string, ObjectSchema>, open: set<string>,
                                  built: map<string, string>, id: string, o: ObjectSchema)
    requires id in u && u[id].named && u[id].key !in open && Searching(u, m, defs, open + {u[id].key}, built)
    requires ObjectOf(u, m, id) == Some(o) && Covered(u, defs, open + {u[id].key}, StructRefs(u, m, id))
    requires Grows(defs0, defs)
    ensures Searching(u, m, defs[u[id].key := o], open, built[u[id].key := id]) && Grows(defs0, defs[u[id].key := o])
  {
    var key := u[id].key;
    var defs', built' := defs[key := o], built[key := id];
    forall k | k in defs' ensures Entry(u, m, defs', open, k, built'[k]) {
      if k == key {
        CoveredClosed(u, defs, open, key, o, StructRefs(u, m, id));
      } else {
        assert Entry(u, m, defs, open + {key}, k, built[k]);
        CoveredClosed(u, defs, open, key, o, StructRefs(u, m, built[k]));
      }
    }
  }

  /** Where `object` stands after i fields. */
  ghost predicate Partial(u: Universe, m: Meta, defs: map<string, ObjectSchema>, open: set<string>, fs: seq<Field>, i: nat,
                          o: ObjectSchema)
  {
    i <= |fs| && FieldsUpTo(u, m, fs, i) == Some(o) && Covered(u, defs, open, RefsUpTo(u, m, fs, i))
  }

  lemma {:induction false} FieldPassed(u: Universe, m: Meta, defs: map<string, ObjectSchema>, open: set<string>, fs: seq<Field>,
                                       i: nat, o: ObjectSchema)
    requires Partial(u, m, defs, open, fs, i, o) && i < |fs| && !Visible(fs[i]) && !Flattened(fs[i])
    ensures Partial(u, m, defs, open, fs, i + 1, o)
  {
  }

  lemma {:induction false} FieldAdded(u: Universe, m: Meta, defs: map<string, ObjectSchema>, defs': map<string, ObjectSchema>,
                                      open: set<string>, fs: seq<Field>, i: nat, o: ObjectSchema, s: Schema)
    requires Partial(u, m, defs, open, fs, i, o) && i < |fs| && Visible(fs[i]) && !Flattened(fs[i]) && Grows(defs, defs')
    requires FieldSchema(u, m, fs[i].typ, fs[i].omitempty) == Some(s) && Covered(u, defs', open, Refs(u, m, fs[i].typ))
    ensures var f := fs[i];
      Partial(u, m, defs', open, fs, i + 1,
              ObjectSchema(o.properties[NameOf(f) := s], if f.omitempty then o.required else o.required + [NameOf(f)]))
  {
    CoveredStays(u, defs, defs', open, RefsUpTo(u, m, fs, i));
  }

  lemma {:induction false} DeclaredRefs(u: Universe, m: Meta, root: string, id: string, i: nat)
    requires Closed(u, m) && id in u && i < |u[id].fields| && Visible(u[id].fields[i])
    requires root in u && (id == root || Reached(u, m, root, id))
    ensures Refs(u, m, u[id].fields[i].typ) <= u.Keys && AllReached(u, m, root, Refs(u, m, u[id].fields[i].typ))
  {
    RefsReached(u, m, root, id);
    RefsGrow(u, m, u[id].fields, i + 1, |u[id].fields|);
  }

  // ---- the generator

  class Generator {
    const u: Universe
    const m: Meta
    ghost const root: string
    var defs: map<string, ObjectSchema>
    var open: set<string>
    ghost var built: map<string, string>

    constructor (u: Universe, m: Meta, ghost root: string)
      ensures this.u == u && this.m == m && this.root == root && defs == map[] && open == {} && built == map[]
    {
      this.u, this.m, this.root := u, m, root;
      defs, open, built := map[], {}, map[];
    }

    ghost predicate Valid()
      reads this
    {
      Closed(u, m) && root in u && Searching(u, m, defs, open, built) && Found(u, m, root, built)
    }

    /** object: on success every struct the fields refer to is registered or open. */
    method Object(id: string) returns (r: Option<ObjectSchema>)
      requires Valid() && id in u && (id == root || Reached(u, m, root, id))
      modifies this
      decreases |Unmet(u, defs, open)|, 3, 0
      ensures open == old(open) && Grows(old(defs), defs)
      ensures r.Some? ==> Valid() && r == ObjectOf(u, m, id) && Covered(u, defs, open, StructRefs(u, m, id))
      ensures r.None? ==> Broken(u, m, id)
    {
      var fs := u[id].fields;
      var o := ObjectSchema(map[], []);
      for i := 0 to |fs|
        invariant Valid() && open == old(open) && Grows(old(defs), defs)
        invariant Partial(u, m, defs, open, fs, i, o)
      {
        UnmetShrinks(u, old(defs), open, defs);
        var next := AddField(id, i, o);
        if next.None? {
          return None;
        }
        o := next.value;
      }
      r := Some(SortRequired(o));
    }

    /** One field of a struct. */
    method AddField(id: string, i: nat, o: ObjectSchema) returns (r: Option<ObjectSchema>)
      requires Valid() && id in u && (id == root || Reached(u, m, root, id))
      requires i < |u[id].fields| && Partial(u, m, defs, open, u[id].fields, i, o)
      modifies this
      decreases |Unmet(u, defs, open)|, 2, 0
      ensures open == old(open) && Grows(old(defs), defs)
      ensures r.Some? ==> Valid() && Partial(u, m, defs, open, u[id].fields, i + 1, r.value)
      ensures r.None? ==> Broken(u, m, id)
    {
      var f := u[id].fields[i];
      if f.skip {
        FieldPassed(u, m, defs, open, u[id].fields, i, o);
        return Some(o);
      }
      if f.embedded && f.tagName == "" {
        BrokenByField(u, m, id, i);
        return None;
      }
      if !f.exported {
        FieldPassed(u, m, defs, open, u[id].fields, i, o);
        return Some(o);
      }
      DeclaredRefs(u, m, root, id, i);
      ghost var before := defs;
      var s := FieldType(f.typ, f.omitempty);
      if s.None? {
        BrokenByField(u, m, id, i);
        return None;
      }
      FieldAdded(u, m, before, defs, open, u[id].fields, i, o, s.value);
      r := Some(ObjectSchema(o.properties[NameOf(f) := s.value], if f.omitempty then o.required else o.required + [NameOf(f)]));
    }

    /** field. */
    method FieldType(t: Type, omit: bool) returns (r: Option<Schema>)
      requires Valid() && Refs(u, m, t) <= u.Keys && AllReached(u, m, root, Refs(u, m, t))
      modifies this
      decreases |Unmet(u, defs, open)|, 1, Depth(t)
      ensures open == old(open) && Grows(old(defs), defs)
      ensures r.Some? ==> Valid() && r == FieldSchema(u, m, t, omit) && Covered(u, defs, open, Refs(u, m, t))
      ensures r.None? ==> BrokenType(u, m, t)
    {
      var key := KeyOf(u, t);
      if key in m.overrides {
        return Some(Leaf(m.overrides[key], EnumOf(m, key)));
      }
      match t {
        case Str(_) => return Some(Leaf(["string"], EnumOf(m, key)));
        case Bool(_) => return Some(Leaf(["boolean"], None));
        case Int(_, _) => return Some(Leaf(["integer"], None));
        case Float(_) => return Some(Leaf(["number"], None));
        case Pointer(_, elem) =>
          var s := FieldType(elem, true);
          if s.None? {
            return None;
          }
          return Some(if omit then s.value else Nullable(s.value));
        case Slice(_, elem) =>
          if IsByte(elem) {
            return Some(Leaf(["string"], None));
          }
          var s := FieldType(elem, true);
          if s.None? {
            return None;
          }
          return Some(Array(if omit then ["array"] else ["array", "null"], s.value));
        case Dict(_, index, elem) =>
          if !index.Str? {
            return None;
          }
          var s := FieldType(elem, true);
          if s.None? {
            return None;
          }
          return Some(Properties(if omit then ["object"] else ["object", "null"], EnumOf(m, index.key), s.value));
        case Struct(id) =>
          r := Reference(id);
        case Opaque(_) => return None;
      }
    }

    /** ref: registers a struct once. */
    method Reference(id: string) returns (r: Option<Schema>)
      requires Valid() && id in u && Reached(u, m, root, id)
      modifies this
      decreases |Unmet(u, defs, open)|, 0, 2
      ensures open == old(open) && Grows(old(defs), defs)
      ensures r.Some? ==> Valid() && u[id].named && r.value == Ref(u[id].key) && Covered(u, defs, open, {id})
      ensures r.None? ==> !u[id].named || Broken(u, m, id)
    {
      if !u[id].named {
        return None;
      }
      var key := u[id].key;
      if key !in defs && key !in open {
        var done := Register(id);
        if !done {
          return None;
        }
      }
      r := Some(Ref(key));
    }

    method Register(id: string) returns (done: bool)
      requires Valid() && id in u && Reached(u, m, root, id) && u[id].named && u[id].key !in defs && u[id].key !in open
      modifies this
      decreases |Unmet(u, defs, open)|, 0, 1
      ensures open == old(open) && Grows(old(defs), defs)
      ensures done ==> Valid() && u[id].key in defs
      ensures !done ==> Broken(u, m, id)
    {
      ghost var defs0 := defs;
      var obj := Build(id);
      if obj.None? {
        return false;
      }
      Finish(u, m, defs0, defs, open, built, id, obj.value);
      defs, built := defs[u[id].key := obj.value], built[u[id].key := id];
      done := true;
    }

    /** The body of a struct, built while its key is open. */
    method Build(id: string) returns (obj: Option<ObjectSchema>)
      requires Valid() && id in u && Reached(u, m, root, id) && u[id].key !in defs && u[id].key !in open
      modifies this
      decreases |Unmet(u, defs, open)|, 0, 0
      ensures open == old(open) && Grows(old(defs), defs)
      ensures obj.Some? ==> Searching(u, m, defs, open + {u[id].key}, built) && Found(u, m, root, built) && obj == ObjectOf(u, m, id)
      ensures obj.Some? ==> Covered(u, defs, open + {u[id].key}, StructRefs(u, m, id))
      ensures obj.None? ==> Broken(u, m, id)
    {
      ghost var open0 := open;
      OneFewer(u, defs, open, id);
      Begin(u, m, defs, open, built, u[id].key);
      open := open + {u[id].key};
      obj := Object(id);
      Closing(open0, open, u[id].key);
      open := open - {u[id].key};
    }
  }

  lemma {:induction false} Closing(open: set<string>, open': set<string>, key: string)
    requires key !in open && open' == open + {key}
    ensures open' - {key} == open
  {
  }

  /** Opening a struct not yet met leaves fewer to meet. */
  lemma {:induction false} OneFewer(u: Universe, defs: map<string, ObjectSchema>, open: set<string>, id: string)
    requires id in u && u[id].key !in defs && u[id].key !in open
    ensures |Unmet(u, defs, open + {u[id].key})| < |Unmet(u, defs, open)|
  {
    var key := u[id].key;
    assert key in Unmet(u, defs, open) && key !in Unmet(u, defs, open + {key});
    FewerUnmet(Unmet(u, defs, open + {key}), Unmet(u, defs, open));
  }

  /** Opening a struct not yet met keeps the invariant. */
  lemma {:induction false} Begin(u: Universe, m: Meta, defs: map<string, ObjectSchema>, open: set<string>,
                                 built: map<string, string>, key: string)
    requires Searching(u, m, defs, open, built) && key !in defs
    ensures Searching(u, m, defs, open + {key}, built)
  {
    forall k | k in defs ensures Entry(u, m, defs, open + {key}, k, built[k]) {
      assert Entry(u, m, defs, open, k, built[k]);
      CoveredMore(u, defs, open, key, StructRefs(u, m, built[k]));
    }
  }

  lemma {:induction false} CoveredMore(u: Universe, defs: map<string, ObjectSchema>, open: set<string>, key: string,
                                       ids: set<string>)
    requires Covered(u, defs, open, ids)
    ensures Covered(u, defs, open + {key}, ids)
  {
  }

  // ---- the document

  predicate Digits(s: string) { s != "" && forall i :: 0 <= i < |s| ==> '0' <= s[i] <= '9' }

  /** Everything before and after the first dot. */
  function CutDot(s: string): (r: Option<(string, string)>) {
    if s == "" then None
    else if s[0] == '.' then Some(("", s[1..]))
    else match CutDot(s[1..]) case None => None case Some(p) => Some(([s[0]] + p.0, p.1))
  }

  /** The MAJOR of a MAJOR.MINOR version. */
  function Major(version: string): (r: Option<string>) {
    match CutDot(version)
    case None => None
    case Some(p) => if Digits(p.0) && Digits(p.1) then Some(p.0) else None
  }

  lemma {:induction false} MajorExact(major: string, minor: string)
    requires Digits(major) && Digits(minor)
    ensures Major(major + "." + minor) == Some(major)
  {
    CutDotAt(major, minor);
  }

  lemma {:induction false} CutDotAt(a: string, b: string)
    requires '.' !in a
    ensures CutDot(a + "." + b) == Some((a, b))
  {
    var s := a + "." + b;
    if a == "" {
      assert s[1..] == b;
    } else {
      assert s[1..] == a[1..] + "." + b;
      CutDotAt(a[1..], b);
      assert [a[0]] + a[1..] == a;
    }
  }

  /** The root's own schemaVersion becomes a pattern over the major. */
  function WithVersion(o: ObjectSchema, major: string): (o': ObjectSchema) {
    if "schemaVersion" in o.properties then o.(properties := o.properties["schemaVersion" := Version(major)]) else o
  }

  /** A generated document: the root's object schema, with everything it needs in `defs` and nothing left open. */
  ghost predicate IsDocument(u: Universe, m: Meta, root: string, doc: Document, built: map<string, string>) {
    && root in u && Major(m.version).Some? && ObjectOf(u, m, root).Some?
    && doc.root == WithVersion(ObjectOf(u, m, root).value, Major(m.version).value)
    && Searching(u, m, doc.defs, {}, built) && Covered(u, doc.defs, {}, StructRefs(u, m, root)) && Found(u, m, root, built)
  }

  /** Generate; it ends on every struct graph. */
  method Generate(u: Universe, m: Meta, root: Type) returns (doc: Option<Document>, ghost built: map<string, string>)
    requires Closed(u, m) && (root.Struct? ==> root.id in u)
    ensures doc.Some? ==> root.Struct? && IsDocument(u, m, root.id, doc.value, built)
    ensures doc.None? ==> !root.Struct? || Major(m.version).None? || Broken(u, m, root.id)
  {
    built := map[];
    if !root.Struct? {
      return None, built;
    }
    var major := Major(m.version);
    if major.None? {
      return None, built;
    }
    var g := new Generator(u, m, root.id);
    var o := g.Object(root.id);
    if o.None? {
      return None, built;
    }
    return Some(Document(WithVersion(o.value, major.value), g.defs)), g.built;
  }

  // ---- every $ref resolves

  function SchemaRefs(s: Schema): (ks: set<string>) {
    match s
    case Array(_, items) => SchemaRefs(items)
    case Properties(_, _, values) => SchemaRefs(values)
    case Ref(k) => {k}
    case AnyOf(a, b) => SchemaRefs(a) + SchemaRefs(b)
    case _ => {}
  }

  /** Every reference in an object schema names an entry. */
  ghost predicate Resolves(defs: map<string, ObjectSchema>, o: ObjectSchema) {
    forall n :: n in o.properties ==> SchemaRefs(o.properties[n]) <= defs.Keys
  }

  lemma {:induction false} TypeResolves(u: Universe, m: Meta, defs: map<string, ObjectSchema>, t: Type, omit: bool)
    requires Covered(u, defs, {}, Refs(u, m, t)) && FieldSchema(u, m, t, omit).Some?
    ensures SchemaRefs(FieldSchema(u, m, t, omit).value) <= defs.Keys
  {
    if KeyOf(u, t) !in m.overrides {
      match t
      case Pointer(_, elem) => TypeResolves(u, m, defs, elem, true);
      case Slice(_, elem) =>
        if !IsByte(elem) {
          TypeResolves(u, m, defs, elem, true);
        }
      case Dict(_, _, elem) => TypeResolves(u, m, defs, elem, true);
      case _ =>
    }
  }

  lemma {:induction false} FieldsResolve(u: Universe, m: Meta, defs: map<string, ObjectSchema>, fs: seq<Field>, n: nat)
    requires n <= |fs| && Covered(u, defs, {}, RefsUpTo(u, m, fs, n)) && FieldsUpTo(u, m, fs, n).Some?
    ensures Resolves(defs, FieldsUpTo(u, m, fs, n).value)
  {
    if n > 0 {
      FieldsResolve(u, m, defs, fs, n - 1);
      if Visible(fs[n - 1]) {
        TypeResolves(u, m, defs, fs[n - 1].typ, fs[n - 1].omitempty);
      }
    }
  }

  /** Every $ref of the document and of its definitions resolves to a definition. */
  lemma {:induction false} EveryRefResolves(u: Universe, m: Meta, root: string, doc: Document, built: map<string, string>)
    requires IsDocument(u, m, root, doc, built)
    ensures Resolves(doc.defs, doc.root)
    ensures forall k :: k in doc.defs ==> Resolves(doc.defs, doc.defs[k])
  {
    FieldsResolve(u, m, doc.defs, u[root].fields, |u[root].fields|);
    forall k | k in doc.defs ensures Resolves(doc.defs, doc.defs[k]) {
      var id := built[k];
      assert Entry(u, m, doc.defs, {}, k, id);
      FieldsResolve(u, m, doc.defs, u[id].fields, |u[id].fields|);
    }
  }

  // ---- success is exact when type keys identify structs

  ghost predicate DistinctKeys(u: Universe) {
    forall a, b :: a in u && b in u && u[a].key == u[b].key ==> a == b
  }

  /** The structs whose bodies are in the document. */
  ghost predicate Described(u: Universe, m: Meta, defs: map<string, ObjectSchema>, id: string) {
    id in u && u[id].key in defs && ObjectOf(u, m, id) == Some(defs[u[id].key]) && Covered(u, defs, {}, StructRefs(u, m, id))
  }

  lemma {:induction false} CoveredAreDescribed(u: Universe, m: Meta, defs: map<string, ObjectSchema>, built: map<string, string>,
                                               ids: set<string>)
    requires DistinctKeys(u) && Searching(u, m, defs, {}, built) && Covered(u, defs, {}, ids)
    ensures forall id :: id in ids ==> Described(u, m, defs, id)
  {
    forall id | id in ids ensures Described(u, m, defs, id) {
      var k := u[id].key;
      assert Entry(u, m, defs, {}, k, built[k]);
    }
  }

  lemma {:induction false} DescribedIsSound(u: Universe, m: Meta, defs: map<string, ObjectSchema>, built: map<string, string>,
                                            id: string, n: nat)
    requires DistinctKeys(u) && Searching(u, m, defs, {}, built)
    requires id in u && ObjectOf(u, m, id).Some? && Covered(u, defs, {}, StructRefs(u, m, id))
    ensures !BrokenWithin(u, m, id, n)
    decreases n
  {
    if n > 0 {
      CoveredAreDescribed(u, m, defs, built, StructRefs(u, m, id));
      forall x | x in StructRefs(u, m, id) ensures !BrokenWithin(u, m, x, n - 1) {
        DescribedIsSound(u, m, defs, built, x, n - 1);
      }
    }
  }

  /** A document exists only if every reachable struct can be described; Generate fails only if one cannot. */
  lemma {:induction false} SuccessMeansDescribable(u: Universe, m: Meta, root: string, doc: Document, built: map<string, string>)
    requires DistinctKeys(u) && IsDocument(u, m, root, doc, built)
    ensures !Broken(u, m, root)
  {
    forall n: nat ensures !BrokenWithin(u, m, root, n) {
      DescribedIsSound(u, m, doc.defs, built, root, n);
    }
  }

  lemma {:induction false} ReachedAreDescribed(u: Universe, m: Meta, root: string, doc: Document, built: map<string, string>,
                                               id: string, n: nat)
    requires DistinctKeys(u) && IsDocument(u, m, root, doc, built) && ReachedWithin(u, m, root, id, n)
    ensures Described(u, m, doc.defs, id)
    decreases n
  {
    if id in StructRefs(u, m, root) {
      CoveredAreDescribed(u, m, doc.defs, built, StructRefs(u, m, root));
    } else {
      var x :| x in u && ReachedWithin(u, m, root, x, n - 1) && id in StructRefs(u, m, x);
      ReachedAreDescribed(u, m, root, doc, built, x, n - 1);
      CoveredAreDescribed(u, m, doc.defs, built, StructRefs(u, m, x));
    }
  }

  /** The definitions are exactly the structs reachable from the root, each with its own object schema. */
  lemma {:induction false} DefsAreReachable(u: Universe, m: Meta, root: string, doc: Document, built: map<string, string>, k: string)
    requires DistinctKeys(u) && IsDocument(u, m, root, doc, built)
    ensures k in doc.defs <==> exists id :: id in u && u[id].key == k && Reached(u, m, root, id)
    ensures forall id :: id in u && Reached(u, m, root, id) ==> Described(u, m, doc.defs, id)
  {
    forall id | id in u && Reached(u, m, root, id) ensures Described(u, m, doc.defs, id) {
      var n: nat :| ReachedWithin(u, m, root, id, n);
      ReachedAreDescribed(u, m, root, doc, built, id, n);
    }
    if k in doc.defs {
      assert Entry(u, m, doc.defs, {}, k, built[k]);
      assert Reached(u, m, root, built[k]);
    }
  }

  /** The document depends on the type and the metadata alone. */
  lemma {:induction false} DocumentUnique(u: Universe, m: Meta, root: string, a: Document, builtA: map<string, string>,
                                          b: Document, builtB: map<string, string>)
    requires DistinctKeys(u) && IsDocument(u, m, root, a, builtA) && IsDocument(u, m, root, b, builtB)
    ensures a == b
  {
    forall k ensures k in a.defs <==> k in b.defs {
      DefsAreReachable(u, m, root, a, builtA, k);
      DefsAreReachable(u, m, root, b, builtB, k);
    }
    forall k | k in a.defs ensures a.defs[k] == b.defs[k] {
      assert Entry(u, m, a.defs, {}, k, builtA[k]) && Entry(u, m, b.defs, {}, k, builtB[k]);
    }
    assert a.defs == b.defs;
  }
}
