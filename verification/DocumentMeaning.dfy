/**
 What a schema says of the Go type it stands for: a relation between schemas
 and shapes, given apart from the code that builds schemas, that leaves no
 schema but the one built.
 */
module DocumentMeaning {
  import opened Wrappers
  import opened Document
  import opened DocumentClosure

  // ----- leaves

  function Scalar(typ: string, format: string): Property {
    BLANK.(typ := typ, format := format)
  }

  /** The least and largest value of a Go integer type. */
  const INTEGERS: map<string, (int, int)> := map[
    "int8" := (-0x80, 0x7f), "int16" := (-0x8000, 0x7fff), "int32" := (-0x8000_0000, 0x7fff_ffff), "rune" := (-0x8000_0000, 0x7fff_ffff),
    "int" := (-0x8000_0000_0000_0000, 0x7fff_ffff_ffff_ffff), "int64" := (-0x8000_0000_0000_0000, 0x7fff_ffff_ffff_ffff),
    "uint8" := (0, 0xff), "byte" := (0, 0xff), "uint16" := (0, 0xffff), "uint32" := (0, 0xffff_ffff),
    "uint" := (0, 0xffff_ffff_ffff_ffff), "uint64" := (0, 0xffff_ffff_ffff_ffff)]

  predicate FitsInt32(range: (int, int)) {
    -0x8000_0000 <= range.0 && range.1 <= 0x7fff_ffff
  }

  /** Library types written as text, with their formats, and as numbers. */
  const TEXTS: map<string, string> := map["time.Time" := "date-time", "uuid.UUID" := "uuid", "net.IP" := "", "netip.Addr" := "",
                                          "netip.Prefix" := "", "netip.AddrPort" := ""]
  const COUNTS: set<string> := {"time.Duration", "time.Month", "time.Weekday"}

  /** An integer is int32 where all its values fit, else int64; a name nothing is known of is an object. */
  predicate DescribesBuiltin(p: Property, name: string) {
    if name in INTEGERS then p == Scalar("integer", if FitsInt32(INTEGERS[name]) then "int32" else "int64")
    else if name == "float32" || name == "float64" then p == Scalar("number", if name == "float32" then "float" else "double")
    else if name == "string" then p == Scalar("string", "")
    else if name == "bool" then p == Scalar("boolean", "")
    else if name == "any" || name == "interface{}" then p == BLANK
    else p == Scalar("object", "")
  }

  predicate DescribesNamed(p: Property, name: string) {
    if name in TEXTS then p == Scalar("string", TEXTS[name])
    else if name in COUNTS then p == Scalar("integer", "int64")
    else if name == "json.Number" then p == Scalar("number", "")
    else if name == "json.RawMessage" then p == BLANK
    else DescribesBuiltin(p, name)
  }

  // ----- shapes

  /** encoding/json writes a slice of bytes, and no array of them, as base64 text. */
  predicate IsBytes(s: Shape) {
    s.kind == Slice && s.elem.Some? && s.elem.value.name in {"byte", "uint8"}
  }

  /** Of the fields that are properties, the last one named k. */
  function LastNamed(fs: Fields, k: string): (r: Option<Field>)
    ensures r.Some? ==> r.value < fs
    decreases fs
  {
    match fs
    case NoFields => None
    case More(f, tail) =>
      if LastNamed(tail, k).Some? then LastNamed(tail, k)
      else if Names(f, k) then Some(f)
      else None
  }

  /** f is written under k in JSON: by its tag, or by its own name where the tag gives none. */
  predicate Names(f: Field, k: string) {
    f.paramType == "" && f.jsonName != "-" && k != "" && k == if f.jsonName != "" then f.jsonName else f.name
  }

  /** p is the schema of JSON values of shape s; JSON knows no pointers. */
  ghost predicate Describes(p: Property, s: Shape)
    decreases s, 1
  {
    if s.kind == Pointer && s.elem.Some? then Describes(p, s.elem.value)
    else if IsBytes(s) then p == Scalar("string", "byte")
    else match s.kind
      case Slice => p.items.Some? && p == BLANK.(typ := "array", items := p.items) && DescribesElem(p.items.value, s)
      case Array => p.items.Some? && p == BLANK.(typ := "array", items := p.items) && DescribesElem(p.items.value, s)
      case Map => p.additional.Some? && p == BLANK.(typ := "object", additional := p.additional) && DescribesElem(p.additional.value, s)
      case Ref => p == RefTo(s.name)
      case Struct => p == BLANK.(typ := "object", properties := p.properties) && DescribesFields(p.properties, s.fields)
      case KindOnly => p == Scalar(s.name, "")
      case Text => p == Scalar("string", "")
      case Marshaler => p == BLANK
      case Recursive => p == BLANK
      case Named => DescribesNamed(p, s.name)
      case _ => DescribesBuiltin(p, s.name)
  }

  ghost predicate DescribesElem(p: Property, s: Shape)
    decreases s, 0
  {
    if s.elem.Some? then Describes(p, s.elem.value) else p == BLANK
  }

  /** One property for every name, described by the last field of that name. */
  ghost predicate DescribesFields(props: map<string, Property>, fs: Fields)
    decreases fs
  {
    && (forall k :: k in props <==> LastNamed(fs, k).Some?)
    && (forall k <- props :: LastNamed(fs, k).Some? && DescribesField(props[k], LastNamed(fs, k).value))
  }

  /** JSON writes f's scalar in quotes. */
  predicate IsQuoted(f: Field, scalar: Property) {
    && f.jsonString && f.paramType == "" && scalar.typ in {"boolean", "integer", "number"}
    && var s := ResolvedShape(f);
       s.kind == Pointer ==> f.written.kind == Pointer && s.elem.Some? && s.elem.value.kind != Pointer
  }

  /** A body field that holds a Go pointer may be null, where the schema has a type and is no list or map. */
  predicate MayBeNull(f: Field, p: Property) {
    && f.paramType == "" && ResolvedShape(f).kind == Pointer && p.typ != ""
    && StripPointers(ResolvedShape(f)).kind !in {Slice, Array, Map}
  }

  /** p is the schema of field f: a reference stands alone, wrapped where it may be null. */
  ghost predicate DescribesField(p: Property, f: Field)
    decreases f
  {
    var s := ResolvedShape(f);
    if StripPointers(s).kind == Ref then
      var ref := RefTo(StripPointers(s).name);
      p == if f.paramType == "" && s.kind == Pointer then BLANK.(typ := "object", allOf := [ref], nullable := true) else ref
    else
      var plain := p.(nullable := false);
      exists typed ::
        && Describes(typed, s)
        && plain == (if IsQuoted(f, typed) then Scalar("string", "") else typed)
        && p.nullable == MayBeNull(f, plain)
  }

  // ----- the schemas built say what they should

  lemma BuiltinsDescribed(name: string)
    ensures DescribesBuiltin(Scalar(BasicType(name).0, BasicType(name).1), name)
  {
  }

  lemma NamedDescribed(s: Shape)
    requires s.kind == Named
    ensures DescribesNamed(TypeOf(s), s.name)
  {
    BuiltinsDescribed(s.name);
  }

  /** The schema built for a shape describes it. */
  lemma {:induction false} TypeDescribes(s: Shape)
    ensures Describes(TypeOf(s), s)
    decreases s, 1
  {
    if s.kind == Pointer && s.elem.Some? {
      TypeDescribes(s.elem.value);
    } else if s.kind == Named {
      NamedDescribed(s);
    } else {
      match s.kind
      case Slice => ElemDescribes(s);
      case Array => ElemDescribes(s);
      case Map => ElemDescribes(s);
      case Struct => FieldsDescribe(s.fields);
      case _ => BuiltinsDescribed(s.name);
    }
  }

  lemma {:induction false} ElemDescribes(s: Shape)
    ensures DescribesElem(TypeOfElem(s), s)
    decreases s, 0
  {
    if s.elem.Some? {
      TypeDescribes(s.elem.value);
    }
  }

  lemma {:induction false} FieldsDescribe(fs: Fields)
    ensures DescribesFields(Properties(fs), fs)
    decreases fs
  {
    if fs.More? {
      FieldsDescribe(fs.tail);
      FieldDescribes(fs.head);
    }
  }

  lemma {:induction false} FieldDescribes(f: Field)
    ensures DescribesField(FieldProperty(f), f)
    decreases f
  {
    var s, typed := ResolvedShape(f), TypeOf(ResolvedShape(f));
    if StripPointers(s).kind != Ref {
      TypeDescribes(s);
      assert Describes(typed, s);
    }
  }

  // ----- and no other schema does

  /** Two schemas that describe one shape are the same. */
  lemma {:induction false} DescribesOnce(p: Property, q: Property, s: Shape)
    requires Describes(p, s) && Describes(q, s)
    ensures p == q
    decreases s, 1
  {
    if s.kind == Pointer && s.elem.Some? {
      DescribesOnce(p, q, s.elem.value);
    } else if !IsBytes(s) {
      match s.kind
      case Slice => ElemOnce(p.items.value, q.items.value, s);
      case Array => ElemOnce(p.items.value, q.items.value, s);
      case Map => ElemOnce(p.additional.value, q.additional.value, s);
      case Struct => FieldsOnce(p.properties, q.properties, s.fields);
      case _ =>
    }
  }

  lemma {:induction false} ElemOnce(p: Property, q: Property, s: Shape)
    requires DescribesElem(p, s) && DescribesElem(q, s)
    ensures p == q
    decreases s, 0
  {
    if s.elem.Some? {
      DescribesOnce(p, q, s.elem.value);
    }
  }

  lemma {:induction false} FieldsOnce(p: map<string, Property>, q: map<string, Property>, fs: Fields)
    requires DescribesFields(p, fs) && DescribesFields(q, fs)
    ensures p == q
    decreases fs
  {
    assert p.Keys == q.Keys;
    forall k | k in p ensures p[k] == q[k] {
      FieldOnce(p[k], q[k], LastNamed(fs, k).value);
    }
  }

  lemma {:induction false} FieldOnce(p: Property, q: Property, f: Field)
    requires DescribesField(p, f) && DescribesField(q, f)
    ensures p == q
    decreases f
  {
    var s := ResolvedShape(f);
    if StripPointers(s).kind != Ref {
      var a :| Describes(a, s) && p.(nullable := false) == (if IsQuoted(f, a) then Scalar("string", "") else a) && p.nullable == MayBeNull(f, p.(nullable := false));
      var b :| Describes(b, s) && q.(nullable := false) == (if IsQuoted(f, b) then Scalar("string", "") else b) && q.nullable == MayBeNull(f, q.(nullable := false));
      DescribesOnce(a, b, s);
      assert p.(nullable := false) == q.(nullable := false);
    }
  }

  // ----- which components it points at

  /** The components named in a shape where its schema shows them: not as bytes, nor in fields a later one of the name hides. */
  ghost function Pointed(s: Shape): set<string>
    decreases s, 1
  {
    if IsBytes(s) then {}
    else match s.kind
      case Ref => {s.name}
      case Struct => PointedFields(s.fields)
      case Pointer => PointedElem(s)
      case Slice => PointedElem(s)
      case Array => PointedElem(s)
      case Map => PointedElem(s)
      case _ => {}
  }

  ghost function PointedElem(s: Shape): set<string>
    decreases s, 0
  {
    if s.elem.Some? then Pointed(s.elem.value) else {}
  }

  ghost function PointedFields(fs: Fields): set<string>
    decreases fs
  {
    match fs
    case NoFields => {}
    case More(f, tail) => (if exists k :: Names(f, k) && LastNamed(tail, k).None? then Pointed(ResolvedShape(f)) else {}) + PointedFields(tail)
  }

  ghost predicate PointsFrom(fs: Fields, k: string, n: string) {
    LastNamed(fs, k).Some? && n in Pointed(ResolvedShape(LastNamed(fs, k).value))
  }

  lemma {:induction false} FieldsPoint(fs: Fields, n: string)
    ensures n in PointedFields(fs) <==> exists k :: PointsFrom(fs, k, n)
    decreases fs
  {
    if fs.More? {
      FieldsPoint(fs.tail, n);
      if n in PointedFields(fs.tail) {
        var k :| PointsFrom(fs.tail, k, n);
        assert PointsFrom(fs, k, n);
      } else if n in PointedFields(fs) {
        var k :| Names(fs.head, k) && LastNamed(fs.tail, k).None?;
        assert PointsFrom(fs, k, n);
      }
      if k :| PointsFrom(fs, k, n) {
        assert LastNamed(fs.tail, k).Some? ==> PointsFrom(fs.tail, k, n);
      }
    }
  }

  /** A schema points at exactly the components its shape shows. */
  lemma {:induction false} PointsExactly(p: Property, s: Shape)
    requires Describes(p, s)
    ensures Refs(p) == Pointed(s)
    decreases s, 1
  {
    hide DescribesNamed, DescribesBuiltin;
    assert RefsOfAll([]) == {};
    if s.kind == Pointer && s.elem.Some? {
      PointsExactly(p, s.elem.value);
    } else if !IsBytes(s) {
      match s.kind
      case Slice => ElemPointsExactly(p.items.value, s);
      case Array => ElemPointsExactly(p.items.value, s);
      case Map => ElemPointsExactly(p.additional.value, s);
      case Struct =>
        FieldsPointExactly(p.properties, s.fields);
        forall n ensures n in Refs(p) <==> n in Pointed(s) {
          ObjectPoints(p.properties, n);
        }
      case Named => LeavesPointNowhere(p, s.name);
      case _ =>
        if DescribesBuiltin(p, s.name) {
          LeavesPointNowhere(p, s.name);
        }
    }
  }

  lemma LeavesPointNowhere(p: Property, name: string)
    requires DescribesNamed(p, name) || DescribesBuiltin(p, name)
    ensures Refs(p) == {}
  {
    assert p == Scalar(p.typ, p.format) && p.properties == map[];
    hide DescribesNamed, DescribesBuiltin;
    assert RefsOfAll([]) == {};
  }

  lemma {:induction false} ElemPointsExactly(p: Property, s: Shape)
    requires DescribesElem(p, s)
    ensures Refs(p) == PointedElem(s)
    decreases s, 0
  {
    assert RefsOfAll([]) == {};
    if s.elem.Some? {
      PointsExactly(p, s.elem.value);
    }
  }

  ghost predicate SomePointsAt(props: map<string, Property>, n: string) {
    exists k <- props :: n in Refs(props[k])
  }

  lemma ObjectPoints(props: map<string, Property>, n: string)
    ensures n in Refs(BLANK.(typ := "object", properties := props)) <==> SomePointsAt(props, n)
  {
    assert RefsOfAll([]) == {};
  }

  lemma {:induction false} FieldsPointExactly(props: map<string, Property>, fs: Fields)
    requires DescribesFields(props, fs)
    ensures forall n :: SomePointsAt(props, n) <==> n in PointedFields(fs)
    decreases fs
  {
    forall k | k in props ensures Refs(props[k]) == Pointed(ResolvedShape(LastNamed(fs, k).value)) {
      FieldPointsExactly(props[k], LastNamed(fs, k).value);
    }
    hide Refs, Pointed, PointedFields, DescribesField, LastNamed, ResolvedShape;
    forall n ensures SomePointsAt(props, n) <==> n in PointedFields(fs) {
      FieldsPoint(fs, n);
      if SomePointsAt(props, n) {
        var k :| k in props && n in Refs(props[k]);
        assert PointsFrom(fs, k, n);
      }
      if k :| PointsFrom(fs, k, n) {
        assert k in props && n in Refs(props[k]);
      }
    }
  }

  /** So does a field's property, its reference wrapped or not. */
  lemma {:induction false} FieldPointsExactly(p: Property, f: Field)
    requires DescribesField(p, f)
    ensures Refs(p) == Pointed(ResolvedShape(f))
    decreases f
  {
    hide Refs, Pointed, Describes, IsQuoted, MayBeNull;
    var s := ResolvedShape(f);
    if StripPointers(s).kind == Ref {
      RefPointsExactly(p, f);
    } else {
      var plain := p.(nullable := false);
      var typed :| Describes(typed, s) && plain == (if IsQuoted(f, typed) then Scalar("string", "") else typed) && p.nullable == MayBeNull(f, plain);
      PointsExactly(typed, s);
      if IsQuoted(f, typed) {
        QuotedIsScalar(f, typed);
        ScalarsPointNowhere(typed, s);
        LeavesPointNowhere(plain, "string");
      }
      NullPointsNowhere(p);
    }
  }

  lemma RefPointsExactly(p: Property, f: Field)
    requires DescribesField(p, f) && StripPointers(ResolvedShape(f)).kind == Ref
    ensures Refs(p) == Pointed(ResolvedShape(f))
  {
    PointersPoint(ResolvedShape(f));
    RefsOfOne(RefTo(StripPointers(ResolvedShape(f)).name));
    assert RefsOfAll([]) == {};
  }

  lemma QuotedIsScalar(f: Field, p: Property)
    requires IsQuoted(f, p)
    ensures p.typ in {"boolean", "integer", "number"}
  {
  }

  lemma NullPointsNowhere(p: Property)
    ensures Refs(p.(nullable := false)) == Refs(p)
  {
  }

  lemma {:induction false} PointersPoint(s: Shape)
    ensures Pointed(StripPointers(s)) == Pointed(s)
    decreases s
  {
    if s.kind == Pointer && s.elem.Some? {
      PointersPoint(s.elem.value);
    }
  }

  lemma {:induction false} ScalarsPointNowhere(p: Property, s: Shape)
    requires Describes(p, s) && p.typ in {"boolean", "integer", "number"}
    ensures Pointed(s) == {}
    decreases s
  {
    if s.kind == Pointer && s.elem.Some? {
      ScalarsPointNowhere(p, s.elem.value);
    }
  }

  // ----- payloads, bodies and components

  /** p is the schema of a payload: of what it resolved to, of the component it is or lists, or an untyped object. */
  ghost predicate DescribesPayload(p: Property, payload: Option<TypeInfo>) {
    if payload.None? then p == OBJECT
    else
      var ti := payload.value;
      if ti.resolution.Some? then Describes(p, ti.resolution.value)
      else if ti.name == "" then (if ti.shape.Some? then Describes(p, ti.shape.value) else p == OBJECT)
      else if ti.shape.Some? && ti.shape.value.kind in {Slice, Array} then DescribesList(p, ti.name, ti.shape.value.elem)
      else p == RefTo(ti.name)
  }

  /** A list of a registered struct, or of the library type its element is named like. */
  ghost predicate DescribesList(p: Property, name: string, elem: Option<Shape>) {
    && p.items.Some? && p == BLANK.(typ := "array", items := p.items)
    && if elem.Some? && IsWellKnownElem(elem.value) then Describes(p.items.value, elem.value) else p.items.value == RefTo(name)
  }

  lemma PayloadDescribed(payload: Option<TypeInfo>)
    ensures DescribesPayload(PayloadSchema(payload), payload)
  {
    if payload.Some? {
      var ti := payload.value;
      if ti.resolution.Some? {
        TypeDescribes(ti.resolution.value);
      } else if ti.shape.Some? {
        TypeDescribes(ti.shape.value);
        if ti.shape.value.elem.Some? {
          TypeDescribes(ti.shape.value.elem.value);
        }
      }
    }
  }

  /** A payload that is not sealed or resolved marks a component exactly where its schema points at it. */
  lemma PayloadNamesWhatItShows(ti: TypeInfo)
    requires !ti.jose && ti.resolution.None?
    ensures var p := PayloadSchema(Some(ti));
            PayloadNamesComponent(ti) <==> ti.name != "" && (p == RefTo(ti.name) || p.items == Some(RefTo(ti.name)))
  {
    if ti.shape.Some? && ti.shape.value.elem.Some? && IsWellKnownElem(ti.shape.value.elem.value) {
      var elem := ti.shape.value.elem.value;
      assert StripPointers(elem) == ShapeAfterPointer(elem);
      assert TypeOf(elem).reference.None?;
    }
  }

  /**
   A success response has a body unless it says it has none: a sealed token, the
   payload itself on a raw route, and otherwise the payload as the data of an
   envelope.
   */
  lemma SuccessDescribed(r: Route)
    ensures SuccessSchema(r).None? <==> r.response.Some? && r.response.value.noContent
    ensures SuccessSchema(r).Some? ==>
              var p := SuccessSchema(r).value;
              if r.response.Some? && r.response.value.jose then p == Scalar("string", "jose")
              else if r.raw then DescribesPayload(p, r.response)
              else
                && p == OBJECT.(properties := p.properties) && p.properties.Keys == {"data", "meta"}
                && DescribesPayload(p.properties["data"], r.response) && p.properties["meta"] == META
  {
    PayloadDescribed(r.response);
  }

  /**
   A request has a body where it has a field that is no parameter, is sealed or
   resolved: a sealed token, what it resolved to, or its component.
   */
  lemma RequestDescribed(r: Route)
    ensures RequestSchema(r).Some? <==> r.request.Some? && (HasBodyField(r.request.value.fields) || r.request.value.jose || r.request.value.resolution.Some?)
    ensures RequestSchema(r).Some? ==>
              var p, ti := RequestSchema(r).value, r.request.value;
              if ti.jose then p == Scalar("string", "jose")
              else if ti.resolution.Some? then Describes(p, ti.resolution.value)
              else p == if ti.name != "" then RefTo(ti.name) else OBJECT
  {
    if r.request.Some? && r.request.value.resolution.Some? {
      TypeDescribes(r.request.value.resolution.value);
    }
  }

  /** One schema for every parameter, in order, described by its field. */
  ghost predicate DescribesParameters(ps: seq<Property>, fs: Fields)
    decreases fs
  {
    match fs
    case NoFields => ps == []
    case More(f, tail) =>
      if f.paramType != "" then ps != [] && DescribesField(ps[0], f) && DescribesParameters(ps[1..], tail)
      else DescribesParameters(ps, tail)
  }

  lemma {:induction false} ParametersDescribed(fs: Fields)
    ensures DescribesParameters(ParameterSchemas(fs), fs)
    decreases fs
  {
    if fs.More? {
      ParametersDescribed(fs.tail);
      if fs.head.paramType != "" {
        FieldDescribes(fs.head);
        assert ParameterSchemas(fs)[1..] == ParameterSchemas(fs.tail);
      } else {
        assert ParameterSchemas(fs) == ParameterSchemas(fs.tail);
      }
    }
  }

  /** A failure is described by the envelope of its route: sealed on either side, raw, or plain. */
  lemma ErrorDescribed(r: Route)
    ensures ErrorSchemaName(r) == "JOSEErrorEnvelope" <==> (r.response.Some? && r.response.value.jose) || (r.request.Some? && r.request.value.jose)
    ensures ErrorSchemaName(r) == "ErrorResponse" <==> ErrorSchemaName(r) != "JOSEErrorEnvelope" && !r.raw
    ensures ErrorSchemaName(r) == "RawErrorResponse" <==> ErrorSchemaName(r) != "JOSEErrorEnvelope" && r.raw
  {
    assert "JOSEErrorEnvelope"[0] != "ErrorResponse"[0] && "JOSEErrorEnvelope"[0] != "RawErrorResponse"[0] && "ErrorResponse"[0] != "RawErrorResponse"[0];
  }

  /** A component stands for a registered type that something points at or that has a body, and describes its fields. */
  lemma ComponentDescribed(types: Registry, referenced: set<string>, k: string)
    ensures k in Generated(types, referenced) <==>
              k in types && types[k].Some?
              && (k in referenced || HasBodyField(types[k].value.fields) || (types[k].value.jose && types[k].value.fields.More?))
    ensures k in Generated(types, referenced) ==>
              var p := Generated(types, referenced)[k];
              p == OBJECT.(properties := p.properties) && DescribesFields(p.properties, types[k].value.fields)
  {
    if k in types && types[k].Some? {
      FieldsDescribe(types[k].value.fields);
    }
  }
}
