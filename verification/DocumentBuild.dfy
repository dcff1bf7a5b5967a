/** The generator's loops over fields, routes and the registry. */
module DocumentBuild {
  import opened Wrappers
  import opened Document
  import opened DocumentClosure

  /** Sheds every pointer level. */
  method StripAll(shape: Shape) returns (s: Shape)
    ensures s == StripPointers(shape)
  {
    s := shape;
    while s.kind == Pointer && s.elem.Some?
      invariant StripPointers(s) == StripPointers(shape)
      decreases s
    {
      s := s.elem.value;
    }
  }

  /** An object's properties from its fields, a later field of a name over an earlier one. */
  method ObjectProperties(fields: Fields) returns (props: map<string, Property>)
    ensures props == Properties(fields)
    ensures forall k <- props :: Refs(props[k]) <= ShownFieldNames(fields)
  {
    hide FieldProperty, PropertyName, Refs;
    props := map[];
    var rest := fields;
    while rest.More?
      invariant Properties(fields) == props + Properties(rest)
      decreases rest
    {
      var name := PropertyName(rest.head);
      if name.Some? {
        props := props[name.value := FieldProperty(rest.head)];
      }
      rest := rest.tail;
    }
    PropertyRefs(fields);
  }

  method AddRoute(r: Route, before: set<string>) returns (out: set<string>)
    ensures out == before + RouteReferences(r)
  {
    out := before;
    if r.response.Some? && PayloadNamesComponent(r.response.value) {
      out := out + {r.response.value.name};
    }
    if r.response.Some? && r.response.value.resolution.Some? {
      out := out + RefNames(r.response.value.resolution.value);
    }
    if IsJose(r.request) && r.request.value.name != "" {
      out := out + {r.request.value.name};
    }
    if r.request.Some? {
      out := out + FieldRefNames(r.request.value.fields);
    }
  }

  /** Every component name the emitted routes and the registered types point at. */
  method CollectReferences(routes: seq<Route>, types: Registry) returns (out: set<string>)
    ensures out == Referenced(routes, types)
  {
    out := {};
    var i := 0;
    while i < |routes|
      invariant 0 <= i <= |routes|
      invariant out == AllRouteReferences(routes[..i])
    {
      assert routes[..i + 1] == routes[..i] + [routes[i]];
      OneRouteMore(routes[..i], routes[i]);
      var more := AddRoute(routes[i], out);
      out := more;
      i := i + 1;
    }
    assert routes[..i] == routes;
    ghost var fromRoutes := out;
    var left := types.Keys;
    assert types.Keys - left == {} && FieldReferences(types, {}) == {};
    while left != {}
      invariant left <= types.Keys
      invariant out == fromRoutes + FieldReferences(types, types.Keys - left)
      decreases left
    {
      var k :| k in left;
      OneTypeMore(types, types.Keys - left, k);
      assert types.Keys - (left - {k}) == (types.Keys - left) + {k};
      if types[k].Some? {
        out := out + FieldRefNames(types[k].value.fields);
      }
      left := left - {k};
    }
  }

  /** One component per registered type something can point at. */
  method GenerateSchemas(types: Registry, referenced: set<string>) returns (schemas: map<string, Property>)
    requires IsClosed(types)
    ensures schemas == Generated(types, referenced)
  {
    schemas := map[];
    var left := types.Keys;
    while left != {}
      invariant left <= types.Keys
      invariant schemas == map k | k in types && k !in left && Emits(types, referenced, k) :: Component(types[k].value)
      decreases left
    {
      var k :| k in left;
      left := left - {k};
      if types[k].Some? {
        var ti := types[k].value;
        if !(IsParamsOnly(ti) && ti.name !in referenced) && (ti.fields.More? || ti.name in referenced) {
          schemas := schemas[ti.name := Component(ti)];
        }
      }
    }
  }

  /** The components of a document: the standard ones in use, and the generated ones over them. */
  method BuildComponents(routes: seq<Route>, types: Registry) returns (names: set<string>, schemas: map<string, Property>)
    requires IsClosed(types) && forall r <- routes :: IsResolved(types, r)
    ensures names == ComponentNames(routes, types) && schemas == Generated(types, Referenced(routes, types))
    ensures forall r <- routes, p <- OperationSchemas(r) :: Refs(p) <= names
    ensures forall k <- schemas :: Refs(schemas[k]) <= names
  {
    var referenced := CollectReferences(routes, types);
    schemas := GenerateSchemas(types, referenced);
    names := StandardNames(routes) + schemas.Keys;
    DocumentCloses(routes, types);
  }
}
