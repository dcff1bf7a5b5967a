/**
 From resolved types to schemas: which property a shape becomes, which
 components the properties of a document point at, and which components the
 document holds.
 */
module Document {
  import opened Wrappers

  datatype Kind =
    | Pointer | Slice | Array | Map | Named | Primitive | Ref | KindOnly | Text | Marshaler | Recursive
    | Struct | Instantiation | Unknown

  /** A type as the analyzer decoded it; fields: those of an anonymous struct, once extracted. */
  datatype Shape = Shape(kind: Kind, name: string, elem: Option<Shape>, fields: Fields)

  /** resolution: the shape with every named type substituted; without one, the field is typed as written. */
  datatype Field = Field(name: string, jsonName: string, paramType: string, jsonString: bool,
                         written: Shape, resolution: Option<Shape>)

  datatype Fields = NoFields | More(head: Field, tail: Fields)

  datatype TypeInfo = TypeInfo(name: string, fields: Fields, jose: bool, noContent: bool,
                               resolution: Option<Shape>, shape: Option<Shape>)

  datatype Route = Route(request: Option<TypeInfo>, response: Option<TypeInfo>, raw: bool, errorStatuses: seq<string>, successStatus: string)

  type Registry = map<string, Option<TypeInfo>>

  /** A schema; its reference, if any, names a component. */
  datatype Property = Property(typ: string, format: string, reference: Option<string>,
                               items: Option<Property>, additional: Option<Property>, allOf: seq<Property>,
                               properties: map<string, Property>, nullable: bool)

  const BLANK := Property("", "", None, None, None, [], map[], false)

  // ----- typing a shape

  function ResolvedShape(f: Field): Shape {
    if f.resolution.Some? then f.resolution.value else f.written
  }

  function StripPointers(s: Shape): (r: Shape)
    ensures r.kind == Pointer ==> r.elem.None?
    ensures r == s || r < s
    decreases s
  {
    if s.kind == Pointer && s.elem.Some? then StripPointers(s.elem.value) else s
  }

  predicate IsSequence(s: Shape) {
    s.kind == Slice || s.kind == Array
  }

  /** Type and format of the well-known library types, by name. */
  const WELL_KNOWN: map<string, (string, string)> := map[
    "time.Time" := ("string", "date-time"), "time.Duration" := ("integer", "int64"), "uuid.UUID" := ("string", "uuid"),
    "json.RawMessage" := ("", ""), "json.Number" := ("number", ""), "time.Month" := ("integer", "int64"),
    "time.Weekday" := ("integer", "int64"), "net.IP" := ("string", ""), "netip.Addr" := ("string", ""),
    "netip.Prefix" := ("string", ""), "netip.AddrPort" := ("string", "")]

  function WellKnown(s: Shape): Option<(string, string)> {
    if s.kind == Slice && s.elem.Some? && (s.elem.value.name == "byte" || s.elem.value.name == "uint8") then Some(("string", "byte"))
    else if s.kind == Named && s.name in WELL_KNOWN then Some(WELL_KNOWN[s.name])
    else None
  }

  /** Type and format of a leaf by its name alone; anything unknown is an object. */
  function BasicType(name: string): (string, string) {
    if name == "string" then ("string", "")
    else if name in {"int8", "int16", "int32", "rune", "uint8", "uint16", "byte"} then ("integer", "int32")
    else if name in {"int", "int64", "uint", "uint32", "uint64"} then ("integer", "int64")
    else if name == "float32" then ("number", "float")
    else if name == "float64" then ("number", "double")
    else if name == "bool" then ("boolean", "")
    else if name in {"any", "interface{}"} then ("", "")
    else ("object", "")
  }

  function TypeOf(s: Shape): Property
    decreases s, 1
  {
    var t := StripPointers(s);
    match WellKnown(t)
    case Some((typ, format)) => BLANK.(typ := typ, format := format)
    case None =>
      match t.kind
      case Slice => BLANK.(typ := "array", items := Some(TypeOfElem(t)))
      case Array => BLANK.(typ := "array", items := Some(TypeOfElem(t)))
      case Map => BLANK.(typ := "object", additional := Some(TypeOfElem(t)))
      case Ref => BLANK.(reference := Some(t.name))
      case KindOnly => BLANK.(typ := t.name)
      case Text => BLANK.(typ := "string")
      case Marshaler => BLANK
      case Recursive => BLANK
      case Struct => BLANK.(typ := "object", properties := Properties(t.fields))
      case _ => BLANK.(typ := BasicType(t.name).0, format := BasicType(t.name).1)
  }

  function TypeOfElem(s: Shape): Property
    decreases s, 0
  {
    if s.elem.Some? then TypeOf(s.elem.value) else BLANK
  }

  /** A path, query or header parameter is no property, nor is a field no document can name. */
  function PropertyName(f: Field): Option<string> {
    if f.paramType != "" || f.jsonName == "-" then None
    else if f.jsonName != "" then Some(f.jsonName)
    else if f.name == "" then None
    else Some(f.name)
  }

  /** The last field of a name wins. */
  function Properties(fs: Fields): map<string, Property>
    decreases fs
  {
    match fs
    case NoFields => map[]
    case More(f, tail) =>
      var rest := Properties(tail);
      if PropertyName(f).Some? && PropertyName(f).value !in rest then rest[PropertyName(f).value := FieldProperty(f)] else rest
  }

  predicate IsPointerField(f: Field) {
    f.paramType == "" && ResolvedShape(f).kind == Pointer
  }

  predicate IsNumeric(typ: string) {
    typ == "integer" || typ == "number"
  }

  /** A json ",string" scalar is written as a string. */
  predicate IsQuotedScalar(f: Field, p: Property) {
    && f.jsonString && f.paramType == ""
    && (p.typ == "boolean" || IsNumeric(p.typ))
    && var r := ResolvedShape(f);
       r.kind != Pointer || (f.written.kind == Pointer && r.elem.Some? && r.elem.value.kind != Pointer)
  }

  function FieldProperty(f: Field): Property
    decreases f
  {
    var resolved := ResolvedShape(f);
    var target := StripPointers(resolved);
    if target.kind == Ref then
      var ref := BLANK.(reference := Some(target.name));
      if IsPointerField(f) then BLANK.(typ := "object", allOf := [ref], nullable := true) else ref
    else
      var typed := TypeOf(resolved);
      var p := if IsQuotedScalar(f, typed) then BLANK.(typ := "string") else typed;
      if IsPointerField(f) && !IsSequence(target) && target.kind != Map && p.typ != "" then p.(nullable := true) else p
  }

  // ----- which components a schema points at

  function Refs(p: Property): set<string>
    decreases p
  {
    (if p.reference.Some? then {p.reference.value} else {})
    + (if p.items.Some? then Refs(p.items.value) else {})
    + (if p.additional.Some? then Refs(p.additional.value) else {})
    + RefsOfAll(p.allOf)
    + (set k, r | k in p.properties && r in Refs(p.properties[k]) :: r)
  }

  function RefsOfAll(ps: seq<Property>): set<string>
    decreases ps
  {
    if ps == [] then {} else Refs(ps[0]) + RefsOfAll(ps[1..])
  }

  /** The components a shape's leaves name; a Marshaler's element is never shown. */
  function RefNames(s: Shape): set<string>
    decreases s
  {
    match s.kind
    case Ref => {s.name}
    case Struct => FieldRefNames(s.fields)
    case Pointer => if s.elem.Some? then RefNames(s.elem.value) else {}
    case Slice => if s.elem.Some? then RefNames(s.elem.value) else {}
    case Array => if s.elem.Some? then RefNames(s.elem.value) else {}
    case Map => if s.elem.Some? then RefNames(s.elem.value) else {}
    case _ => {}
  }

  function FieldRefNames(fs: Fields): set<string>
    decreases fs
  {
    match fs
    case NoFields => {}
    case More(f, tail) => RefNames(ResolvedShape(f)) + FieldRefNames(tail)
  }

  /** A field that reaches no document: neither a property nor a parameter. */
  predicate IsExcluded(f: Field) {
    f.jsonName == "-" && f.paramType == ""
  }

  /** Of the components a shape's leaves name, those a document can show. */
  function ShownNames(s: Shape): set<string>
    decreases s
  {
    match s.kind
    case Ref => {s.name}
    case Struct => ShownFieldNames(s.fields)
    case Pointer => if s.elem.Some? then ShownNames(s.elem.value) else {}
    case Slice => if s.elem.Some? then ShownNames(s.elem.value) else {}
    case Array => if s.elem.Some? then ShownNames(s.elem.value) else {}
    case Map => if s.elem.Some? then ShownNames(s.elem.value) else {}
    case _ => {}
  }

  function ShownFieldNames(fs: Fields): set<string>
    decreases fs
  {
    match fs
    case NoFields => {}
    case More(f, tail) => (if IsExcluded(f) then {} else ShownNames(ResolvedShape(f))) + ShownFieldNames(tail)
  }

  lemma {:induction false} ShownAreNamed(s: Shape)
    ensures ShownNames(s) <= RefNames(s)
    decreases s
  {
    if s.kind == Struct {
      ShownFieldsAreNamed(s.fields);
    } else if s.elem.Some? {
      ShownAreNamed(s.elem.value);
    }
  }

  lemma {:induction false} ShownFieldsAreNamed(fs: Fields)
    ensures ShownFieldNames(fs) <= FieldRefNames(fs)
    decreases fs
  {
    if fs.More? {
      ShownAreNamed(ResolvedShape(fs.head));
      ShownFieldsAreNamed(fs.tail);
    }
  }

  lemma {:induction false} StrippedNames(s: Shape)
    ensures ShownNames(StripPointers(s)) == ShownNames(s)
    decreases s
  {
    if s.kind == Pointer && s.elem.Some? {
      StrippedNames(s.elem.value);
    }
  }

  lemma RefsOfOne(p: Property)
    ensures RefsOfAll([]) == {} && RefsOfAll([p]) == Refs(p)
  {
    assert [p][1..] == [];
  }

  /** A shape's schema points at nothing its leaves do not name where they show. */
  lemma {:induction false} TypeRefs(s: Shape)
    ensures Refs(TypeOf(s)) <= ShownNames(s)
    decreases s, 1
  {
    var t := StripPointers(s);
    StrippedNames(s);
    if WellKnown(t).None? {
      match t.kind
      case Slice => ElemRefs(t);
      case Array => ElemRefs(t);
      case Map => ElemRefs(t);
      case Struct => PropertyRefs(t.fields);
      case _ =>
    }
  }

  lemma {:induction false} ElemRefs(s: Shape)
    requires s.kind == Slice || s.kind == Array || s.kind == Map
    ensures Refs(TypeOfElem(s)) <= ShownNames(s)
    decreases s, 0
  {
    if s.elem.Some? {
      TypeRefs(s.elem.value);
    }
  }

  lemma {:induction false} PropertyRefs(fs: Fields)
    ensures forall k <- Properties(fs) :: Refs(Properties(fs)[k]) <= ShownFieldNames(fs)
    decreases fs
  {
    if fs.More? {
      FieldPropertyRefs(fs.head);
      PropertyRefs(fs.tail);
    }
  }

  lemma {:induction false} FieldPropertyRefs(f: Field)
    ensures Refs(FieldProperty(f)) <= ShownNames(ResolvedShape(f))
    decreases f
  {
    var s := ResolvedShape(f);
    StrippedNames(s);
    if StripPointers(s).kind == Ref {
      RefFieldRefs(f);
    } else {
      TypeRefs(s);
      PlainFieldRefs(f);
    }
  }

  lemma RefFieldRefs(f: Field)
    requires StripPointers(ResolvedShape(f)).kind == Ref
    ensures Refs(FieldProperty(f)) == ShownNames(StripPointers(ResolvedShape(f)))
  {
    var ref := BLANK.(reference := Some(StripPointers(ResolvedShape(f)).name));
    RefsOfOne(ref);
    hide TypeOf, WellKnown, StripPointers;
    assert FieldProperty(f) == if IsPointerField(f) then BLANK.(typ := "object", allOf := [ref], nullable := true) else ref;
  }

  lemma PlainFieldRefs(f: Field)
    requires StripPointers(ResolvedShape(f)).kind != Ref
    ensures Refs(FieldProperty(f)) <= Refs(TypeOf(ResolvedShape(f)))
  {
    var typed := TypeOf(ResolvedShape(f));
    RefsOfOne(BLANK);
    hide TypeOf, WellKnown, StripPointers;
    var p := if IsQuotedScalar(f, typed) then BLANK.(typ := "string") else typed;
    assert FieldProperty(f) == p || FieldProperty(f) == p.(nullable := true);
  }
}
