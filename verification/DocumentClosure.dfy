/** No schema of a generated document points at a component the document does not hold. */
module DocumentClosure {
  import opened Wrappers
  import opened Document

  const ERROR_RESPONSE := "ErrorResponse"
  const JOSE_ERROR_ENVELOPE := "JOSEErrorEnvelope"
  const RAW_ERROR_RESPONSE := "RawErrorResponse"
  const SUCCESS_RESPONSE := "SuccessResponse"

  const STRING := BLANK.(typ := "string")
  const OBJECT := BLANK.(typ := "object")
  const JOSE_TOKEN := BLANK.(typ := "string", format := "jose")

  function RefTo(name: string): Property {
    BLANK.(reference := Some(name))
  }

  // ----- what an operation shows

  function ShapeAfterPointer(s: Shape): Shape {
    if s.kind == Pointer && s.elem.Some? then s.elem.value else s
  }

  predicate IsWellKnownElem(s: Shape) {
    WellKnown(ShapeAfterPointer(s)).Some?
  }

  /** The payload of a slice of registered structs. */
  function StructSliceSchema(ti: TypeInfo): Property
    requires ti.shape.Some?
  {
    var elem := ti.shape.value.elem;
    BLANK.(typ := "array", items := Some(if elem.Some? && IsWellKnownElem(elem.value) then TypeOf(elem.value) else RefTo(ti.name)))
  }

  function PayloadSchema(response: Option<TypeInfo>): Property {
    match response
    case None => OBJECT
    case Some(ti) =>
      if ti.resolution.Some? then TypeOf(ti.resolution.value)
      else if ti.name == "" && ti.shape.Some? then TypeOf(ti.shape.value)
      else if ti.name == "" then OBJECT
      else if ti.shape.Some? && IsSequence(ti.shape.value) then StructSliceSchema(ti)
      else RefTo(ti.name)
  }

  const META := OBJECT.(properties := map["timestamp" := STRING, "traceId" := STRING])

  function Envelope(response: Option<TypeInfo>): Property {
    OBJECT.(properties := map["data" := PayloadSchema(response), "meta" := META])
  }

  predicate IsJose(ti: Option<TypeInfo>) {
    ti.Some? && ti.value.jose
  }

  function SuccessSchema(r: Route): Option<Property> {
    if r.response.Some? && r.response.value.noContent then None
    else if IsJose(r.response) then Some(JOSE_TOKEN)
    else if r.raw then Some(PayloadSchema(r.response))
    else Some(Envelope(r.response))
  }

  function ErrorSchemaName(r: Route): string {
    if IsJose(r.response) || IsJose(r.request) then JOSE_ERROR_ENVELOPE
    else if r.raw then RAW_ERROR_RESPONSE
    else ERROR_RESPONSE
  }

  predicate HasBodyField(fs: Fields) {
    fs.More? && (fs.head.paramType == "" || HasBodyField(fs.tail))
  }

  function RequestSchema(r: Route): Option<Property> {
    match r.request
    case None => None
    case Some(ti) =>
      if !HasBodyField(ti.fields) && !ti.jose && ti.resolution.None? then None
      else if ti.jose then Some(JOSE_TOKEN)
      else if ti.resolution.Some? then Some(TypeOf(ti.resolution.value))
      else if ti.name != "" then Some(RefTo(ti.name))
      else Some(OBJECT)
  }

  /** The schemas of the parameters a request's fields declare. */
  function ParameterSchemas(fs: Fields): seq<Property> {
    match fs
    case NoFields => []
    case More(f, tail) => (if f.paramType != "" then [FieldProperty(f)] else []) + ParameterSchemas(tail)
  }

  function Optionally(p: Option<Property>): seq<Property> {
    if p.Some? then [p.value] else []
  }

  /** Every schema of a route's operation. */
  function OperationSchemas(r: Route): seq<Property> {
    (if r.request.Some? then ParameterSchemas(r.request.value.fields) else [])
    + Optionally(RequestSchema(r)) + Optionally(SuccessSchema(r)) + [RefTo(ErrorSchemaName(r))]
  }

  /** The component a JOSE description names in prose. */
  function PlaintextName(r: Route): Option<string> {
    match r.response
    case Some(ti) => if ti.name != "" then Some(ti.name) else if ti.resolution.Some? then None else Some(SUCCESS_RESPONSE)
    case None => Some(SUCCESS_RESPONSE)
  }

  function ProseNames(r: Route): set<string> {
    (if IsJose(r.response) && !r.response.value.noContent && PlaintextName(r).Some? then {PlaintextName(r).value} else {})
    + (if IsJose(r.request) && r.request.value.name != "" then {r.request.value.name} else {})
  }

  // ----- which components a document points at

  predicate PayloadNamesComponent(ti: TypeInfo) {
    if ti.name == "" then false
    else if ti.jose then true
    else if ti.resolution.Some? then false
    else if ti.shape.Some? && IsSequence(ti.shape.value) then ti.shape.value.elem.None? || !IsWellKnownElem(ti.shape.value.elem.value)
    else true
  }

  function RouteReferences(r: Route): set<string> {
    (if r.response.Some? && PayloadNamesComponent(r.response.value) then {r.response.value.name} else {})
    + (if r.response.Some? && r.response.value.resolution.Some? then RefNames(r.response.value.resolution.value) else {})
    + (if IsJose(r.request) && r.request.value.name != "" then {r.request.value.name} else {})
    + (if r.request.Some? then FieldRefNames(r.request.value.fields) else {})
  }

  function AllRouteReferences(routes: seq<Route>): set<string> {
    set r, n | r in routes && n in RouteReferences(r) :: n
  }

  function FieldReferences(types: Registry, keys: set<string>): set<string> {
    set k, n | k in keys && k in types && types[k].Some? && n in FieldRefNames(types[k].value.fields) :: n
  }

  function Referenced(routes: seq<Route>, types: Registry): set<string> {
    AllRouteReferences(routes) + FieldReferences(types, types.Keys)
  }

  lemma OneRouteMore(routes: seq<Route>, r: Route)
    ensures AllRouteReferences(routes + [r]) == AllRouteReferences(routes) + RouteReferences(r)
  {
  }

  lemma OneTypeMore(types: Registry, keys: set<string>, k: string)
    requires k in types
    ensures FieldReferences(types, keys + {k})
         == FieldReferences(types, keys) + if types[k].Some? then FieldRefNames(types[k].value.fields) else {}
  {
  }

  // ----- which components it holds

  predicate IsParamsOnly(ti: TypeInfo) {
    !ti.jose && ti.fields.More? && !HasBodyField(ti.fields)
  }

  predicate Emits(types: Registry, referenced: set<string>, k: string) {
    && k in types && types[k].Some?
    && (k in referenced || (types[k].value.fields.More? && !IsParamsOnly(types[k].value)))
  }

  function Component(ti: TypeInfo): Property {
    OBJECT.(properties := Properties(ti.fields))
  }

  function Generated(types: Registry, referenced: set<string>): map<string, Property> {
    map k | k in types && Emits(types, referenced, k) :: Component(types[k].value)
  }

  function StandardNames(routes: seq<Route>): set<string> {
    (set r | r in routes :: ErrorSchemaName(r))
    + (if exists r <- routes :: IsJose(r.response) && PlaintextName(r) == Some(SUCCESS_RESPONSE) then {SUCCESS_RESPONSE} else {})
  }

  function ComponentNames(routes: seq<Route>, types: Registry): set<string> {
    StandardNames(routes) + Generated(types, Referenced(routes, types)).Keys
  }

  // ----- what the analyzer hands over

  predicate Registered(types: Registry, name: string) {
    name in types && types[name].Some?
  }

  /** Entries stand under their own names, and what the fields a document shows point at is registered. */
  predicate IsClosed(types: Registry) {
    forall k <- types :: types[k].Some? ==>
      types[k].value.name == k && forall n <- ShownFieldNames(types[k].value.fields) :: Registered(types, n)
  }

  /** A type as written points at nothing; one resolved points at registered types; a name shown is registered. */
  predicate IsResolved(types: Registry, r: Route) {
    && (r.response.Some? ==>
          && (PayloadNamesComponent(r.response.value) ==> Registered(types, r.response.value.name))
          && (r.response.value.resolution.Some? ==> forall n <- ShownNames(r.response.value.resolution.value) :: Registered(types, n))
          && (r.response.value.shape.Some? ==> RefNames(r.response.value.shape.value) == {}))
    && (r.request.Some? ==>
          && (r.request.value.resolution.Some? ==> RefNames(r.request.value.resolution.value) == {})
          && (forall n <- ShownFieldNames(r.request.value.fields) :: Registered(types, n))
          && (r.request.value.name != "" && (r.request.value.resolution.None? || r.request.value.jose) ==>
                Registered(types, r.request.value.name) && types[r.request.value.name].value.fields == r.request.value.fields))
  }

  // ----- the result

  lemma ReferencedIsHeld(routes: seq<Route>, types: Registry, n: string)
    requires n in Referenced(routes, types) && Registered(types, n)
    ensures n in ComponentNames(routes, types)
  {
    assert Emits(types, Referenced(routes, types), n);
  }

  lemma RouteRefsHeld(routes: seq<Route>, types: Registry, r: Route, ns: set<string>)
    requires r in routes && ns <= RouteReferences(r) && forall n <- ns :: Registered(types, n)
    ensures ns <= ComponentNames(routes, types)
  {
    forall n | n in ns ensures n in ComponentNames(routes, types) {
      ReferencedIsHeld(routes, types, n);
    }
  }

  lemma {:induction false} ParameterRefs(fs: Fields)
    ensures forall p <- ParameterSchemas(fs) :: Refs(p) <= ShownFieldNames(fs)
    decreases fs
  {
    if fs.More? {
      ParameterRefs(fs.tail);
      FieldPropertyRefs(fs.head);
    }
  }

  lemma BlankRefs()
    ensures Refs(BLANK) == {} && Refs(STRING) == {} && Refs(OBJECT) == {} && Refs(JOSE_TOKEN) == {} && Refs(META) == {}
    ensures forall n: string :: Refs(RefTo(n)) == {n}
  {
    assert RefsOfAll([]) == {};
    assert forall k <- META.properties :: Refs(META.properties[k]) == {};
  }

  lemma WellKnownElemRefs(s: Shape)
    requires IsWellKnownElem(s)
    ensures Refs(TypeOf(s)) == {}
  {
    var t := ShapeAfterPointer(s);
    assert t.kind != Pointer;
    assert StripPointers(s) == t;
    BlankRefs();
  }

  /** What a payload's schema points at, its route marks. */
  lemma PayloadRefs(types: Registry, r: Route)
    requires IsResolved(types, r) && !IsJose(r.response)
    ensures Refs(PayloadSchema(r.response)) <= RouteReferences(r)
    ensures forall n <- Refs(PayloadSchema(r.response)) :: Registered(types, n)
  {
    BlankRefs();
    if r.response.Some? {
      var ti := r.response.value;
      if ti.resolution.Some? {
        TypeRefs(ti.resolution.value);
        ShownAreNamed(ti.resolution.value);
      } else if ti.shape.Some? {
        TypeRefs(ti.shape.value);
        ShownAreNamed(ti.shape.value);
        if ti.name != "" && IsSequence(ti.shape.value) && ti.shape.value.elem.Some? && IsWellKnownElem(ti.shape.value.elem.value) {
          WellKnownElemRefs(ti.shape.value.elem.value);
        }
      }
    }
  }

  lemma EnvelopeRefs(response: Option<TypeInfo>)
    ensures Refs(Envelope(response)) <= Refs(PayloadSchema(response))
  {
    BlankRefs();
    var e := Envelope(response);
    assert RefsOfAll(e.allOf) == {};
    assert forall k <- e.properties :: Refs(e.properties[k]) <= Refs(PayloadSchema(response));
  }

  lemma SuccessRefsHeld(routes: seq<Route>, types: Registry, r: Route)
    requires r in routes && IsResolved(types, r) && SuccessSchema(r).Some?
    ensures Refs(SuccessSchema(r).value) <= ComponentNames(routes, types)
  {
    BlankRefs();
    if !IsJose(r.response) {
      PayloadRefs(types, r);
      EnvelopeRefs(r.response);
      RouteRefsHeld(routes, types, r, Refs(PayloadSchema(r.response)));
    }
  }

  /** A request's own name is not marked: a body that shows it has a field its component must hold. */
  lemma RequestRefsHeld(routes: seq<Route>, types: Registry, r: Route)
    requires r in routes && IsResolved(types, r) && RequestSchema(r).Some?
    ensures Refs(RequestSchema(r).value) <= ComponentNames(routes, types)
  {
    BlankRefs();
    var ti := r.request.value;
    if ti.resolution.Some? {
      TypeRefs(ti.resolution.value);
      ShownAreNamed(ti.resolution.value);
    } else if !ti.jose && ti.name != "" {
      assert HasBodyField(types[ti.name].value.fields);
      assert Emits(types, Referenced(routes, types), ti.name);
    }
  }

  lemma ParameterRefsHeld(routes: seq<Route>, types: Registry, r: Route)
    requires r in routes && IsResolved(types, r) && r.request.Some?
    ensures forall p <- ParameterSchemas(r.request.value.fields) :: Refs(p) <= ComponentNames(routes, types)
  {
    ParameterRefs(r.request.value.fields);
    ShownFieldsAreNamed(r.request.value.fields);
    RouteRefsHeld(routes, types, r, ShownFieldNames(r.request.value.fields));
  }

  /** Every component a route's descriptions name is there. */
  lemma ProseHeld(routes: seq<Route>, types: Registry, r: Route)
    requires r in routes && IsResolved(types, r)
    ensures ProseNames(r) <= ComponentNames(routes, types)
  {
    forall n | n in ProseNames(r) ensures n in ComponentNames(routes, types) {
      if n in RouteReferences(r) && Registered(types, n) {
        RouteRefsHeld(routes, types, r, {n});
      }
    }
  }

  /** Every reference of an operation is there. */
  lemma OperationCloses(routes: seq<Route>, types: Registry, r: Route)
    requires r in routes && IsResolved(types, r)
    ensures forall p <- OperationSchemas(r) :: Refs(p) <= ComponentNames(routes, types)
  {
    hide ComponentNames, Refs, IsResolved, RequestSchema, SuccessSchema, ParameterSchemas;
    BlankRefs();
    if r.request.Some? {
      ParameterRefsHeld(routes, types, r);
    }
    if RequestSchema(r).Some? {
      RequestRefsHeld(routes, types, r);
    }
    if SuccessSchema(r).Some? {
      SuccessRefsHeld(routes, types, r);
    }
    ErrorHeld(routes, types, r);
    forall p | p in OperationSchemas(r) ensures Refs(p) <= ComponentNames(routes, types) {
      if r.request.Some? && p in ParameterSchemas(r.request.value.fields) {
      } else if RequestSchema(r).Some? && p == RequestSchema(r).value {
      } else if SuccessSchema(r).Some? && p == SuccessSchema(r).value {
      } else {
        assert p == RefTo(ErrorSchemaName(r));
      }
    }
  }

  lemma ErrorHeld(routes: seq<Route>, types: Registry, r: Route)
    requires r in routes
    ensures ErrorSchemaName(r) in ComponentNames(routes, types)
  {
    assert ErrorSchemaName(r) in StandardNames(routes);
  }

  lemma ComponentCloses(routes: seq<Route>, types: Registry, k: string)
    requires IsClosed(types) && k in Generated(types, Referenced(routes, types))
    ensures Refs(Generated(types, Referenced(routes, types))[k]) <= ComponentNames(routes, types)
  {
    var ti := types[k].value;
    PropertyRefs(ti.fields);
    BlankRefs();
    assert RefsOfAll([]) == {};
    ShownFieldsAreNamed(ti.fields);
    assert Refs(Component(ti)) <= ShownFieldNames(ti.fields);
    forall n | n in ShownFieldNames(ti.fields) ensures n in ComponentNames(routes, types) {
      assert n in Referenced(routes, types);
      ReferencedIsHeld(routes, types, n);
    }
  }

  /** No dangling reference, in any operation or component, at any depth. */
  lemma DocumentCloses(routes: seq<Route>, types: Registry)
    requires IsClosed(types) && forall r <- routes :: IsResolved(types, r)
    ensures forall r <- routes, p <- OperationSchemas(r) :: Refs(p) <= ComponentNames(routes, types)
    ensures forall r <- routes :: ProseNames(r) <= ComponentNames(routes, types)
    ensures forall k <- Generated(types, Referenced(routes, types)) ::
              Refs(Generated(types, Referenced(routes, types))[k]) <= ComponentNames(routes, types)
  {
    forall r | r in routes
      ensures forall p <- OperationSchemas(r) :: Refs(p) <= ComponentNames(routes, types)
      ensures ProseNames(r) <= ComponentNames(routes, types)
    {
      OperationCloses(routes, types, r);
      ProseHeld(routes, types, r);
    }
    forall k | k in Generated(types, Referenced(routes, types))
      ensures Refs(Generated(types, Referenced(routes, types))[k]) <= ComponentNames(routes, types)
    {
      ComponentCloses(routes, types, k);
    }
  }
}
