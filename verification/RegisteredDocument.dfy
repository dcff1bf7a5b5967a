/**
 Registered, therefore no dangling reference: what registration leaves behind
 is what the generator of the document asks for.
 */
module RegisteredDocument {
  import opened Wrappers
  import Naming
  import R = RegistryClosure
  import opened Document
  import opened DocumentClosure

  /** The leaves registration follows in a shape, those of an anonymous struct's shown fields below it. */
  function LeavesIn(s: Shape): R.Leaves
    decreases s
  {
    match s.kind
    case Ref => R.Leafed(R.Component(s.name), R.NoLeaves)
    case Struct => R.Leafed(R.Inline(FieldLeaves(s.fields)), R.NoLeaves)
    case Pointer => ElemLeaves(s)
    case Slice => ElemLeaves(s)
    case Array => ElemLeaves(s)
    case Map => ElemLeaves(s)
    case _ => R.Leafed(R.Plain, R.NoLeaves)
  }

  function ElemLeaves(s: Shape): R.Leaves
    decreases s, 0
  {
    if s.elem.Some? then LeavesIn(s.elem.value) else R.NoLeaves
  }

  function FieldLeaves(fs: Fields): R.Leaves
    decreases fs
  {
    match fs
    case NoFields => R.NoLeaves
    case More(f, tail) => Both(if IsExcluded(f) then R.NoLeaves else LeavesIn(ResolvedShape(f)), FieldLeaves(tail))
  }

  function Both(a: R.Leaves, b: R.Leaves): R.Leaves {
    if a.NoLeaves? then b else R.Leafed(a.head, Both(a.tail, b))
  }

  lemma {:induction false} BothInside(a: R.Leaves, b: R.Leaves, keys: set<string>)
    ensures R.AllPointInside(Both(a, b), keys) <==> R.AllPointInside(a, keys) && R.AllPointInside(b, keys)
    decreases a
  {
    if a.Leafed? {
      BothInside(a.tail, b, keys);
    }
  }

  /** A shape's leaves point inside the registry exactly where what it shows is registered. */
  lemma {:induction false} InsideIsShown(s: Shape, keys: set<string>)
    ensures R.AllPointInside(LeavesIn(s), keys) <==> ShownNames(s) <= keys
    decreases s
  {
    if s.kind == Struct {
      FieldsInside(s.fields, keys);
    } else if s.elem.Some? {
      InsideIsShown(s.elem.value, keys);
    }
  }

  lemma {:induction false} FieldsInside(fs: Fields, keys: set<string>)
    ensures R.AllPointInside(FieldLeaves(fs), keys) <==> ShownFieldNames(fs) <= keys
    decreases fs
  {
    if fs.More? {
      var leaves := if IsExcluded(fs.head) then R.NoLeaves else LeavesIn(ResolvedShape(fs.head));
      InsideIsShown(ResolvedShape(fs.head), keys);
      FieldsInside(fs.tail, keys);
      BothInside(leaves, FieldLeaves(fs.tail), keys);
    }
  }

  // ----- the two registries

  function Listed(fs: Fields): seq<R.Field> {
    match fs
    case NoFields => []
    case More(f, tail) => [R.Field(IsExcluded(f), LeavesIn(ResolvedShape(f)))] + Listed(tail)
  }

  /** The generator's registry holds the analyzer's entries, field by field. */
  predicate Holds(types: Registry, r: R.Registry) {
    && types.Keys == r.Keys
    && forall k <- types :: types[k].Some? && types[k].value.name == k && r[k] == Listed(types[k].value.fields)
  }

  lemma {:induction false} ListedInside(fs: Fields, keys: set<string>)
    ensures R.ClosedUpTo(Listed(fs), |Listed(fs)|, keys) ==> ShownFieldNames(fs) <= keys
    decreases fs
  {
    if fs.More? && R.ClosedUpTo(Listed(fs), |Listed(fs)|, keys) {
      var all, rest := Listed(fs), Listed(fs.tail);
      assert R.FieldClosed(all[0], keys);
      forall i | 0 <= i < |rest| ensures R.FieldClosed(rest[i], keys) {
        assert R.FieldClosed(all[i + 1], keys);
      }
      InsideIsShown(ResolvedShape(fs.head), keys);
      ListedInside(fs.tail, keys);
    }
  }

  /** A closed registry is what the generator asks for. */
  lemma ClosedIsClosed(types: Registry, r: R.Registry)
    requires R.Closed(r) && Holds(types, r)
    ensures IsClosed(types)
  {
    forall k | k in types
      ensures types[k].value.name == k && forall n <- ShownFieldNames(types[k].value.fields) :: Registered(types, n)
    {
      ListedInside(types[k].value.fields, r.Keys);
    }
  }

  // ----- what the routes name

  /** A route names registered structs, with their own fields, and shapes whose leaves were registered. */
  predicate NamesRegistered(types: Registry, r: Route) {
    && (r.response.Some? ==>
          && (PayloadNamesComponent(r.response.value) ==> r.response.value.name in types)
          && (r.response.value.resolution.Some? ==> R.AllPointInside(LeavesIn(r.response.value.resolution.value), types.Keys))
          && (r.response.value.shape.Some? ==> RefNames(r.response.value.shape.value) == {}))
    && (r.request.Some? ==>
          && (r.request.value.resolution.Some? ==> RefNames(r.request.value.resolution.value) == {})
          && R.AllPointInside(FieldLeaves(r.request.value.fields), types.Keys)
          && (r.request.value.name != "" && (r.request.value.resolution.None? || r.request.value.jose) ==>
                r.request.value.name in types && types[r.request.value.name].Some?
                && types[r.request.value.name].value.fields == r.request.value.fields))
  }

  lemma NamedIsResolved(types: Registry, reg: R.Registry, r: Route)
    requires Holds(types, reg) && NamesRegistered(types, r)
    ensures IsResolved(types, r)
  {
    if r.response.Some? && r.response.value.resolution.Some? {
      InsideIsShown(r.response.value.resolution.value, types.Keys);
    }
    if r.request.Some? {
      FieldsInside(r.request.value.fields, types.Keys);
    }
  }

  /** Registered, therefore every reference of the document is held, in any operation or component, at any depth. */
  lemma RegisteredDocumentCloses(routes: seq<Route>, types: Registry, reg: R.Registry)
    requires R.Closed(reg) && Holds(types, reg) && forall r <- routes :: NamesRegistered(types, r)
    ensures forall r <- routes, p <- OperationSchemas(r) :: Refs(p) <= ComponentNames(routes, types)
    ensures forall r <- routes :: ProseNames(r) <= ComponentNames(routes, types)
    ensures forall k <- Generated(types, Referenced(routes, types)) ::
              Refs(Generated(types, Referenced(routes, types))[k]) <= ComponentNames(routes, types)
  {
    ClosedIsClosed(types, reg);
    forall r | r in routes ensures IsResolved(types, r) {
      NamedIsResolved(types, reg, r);
    }
    DocumentCloses(routes, types);
  }

  /** Whatever the generator makes of the registry, the document closes. */
  ghost predicate DocumentsClose(reg: R.Registry) {
    forall routes: seq<Route>, types: Registry ::
      Holds(types, reg) && (forall r <- routes :: NamesRegistered(types, r)) ==>
        forall r <- routes, p <- OperationSchemas(r) :: Refs(p) <= ComponentNames(routes, types)
  }

  lemma ClosedDocumentsClose(reg: R.Registry)
    requires R.Closed(reg)
    ensures DocumentsClose(reg)
  {
    forall routes: seq<Route>, types: Registry | Holds(types, reg) && (forall r <- routes :: NamesRegistered(types, r))
      ensures forall r <- routes, p <- OperationSchemas(r) :: Refs(p) <= ComponentNames(routes, types)
    {
      RegisteredDocumentCloses(routes, types, reg);
    }
  }

  /**
   Registers every payload: each declared one, and all it reaches, has an entry
   of its own, and whatever the generator makes of the registry, the document
   closes.
   */
  method RegisterPayloads(registrar: R.TypeRegistrar, payloads: seq<Naming.TypeId>) returns (keys: seq<Option<string>>)
    requires registrar.Valid() && registrar.Complete()
    modifies registrar
    ensures registrar.Valid() && registrar.Complete() && |keys| == |payloads| && registrar.roots == old(registrar.roots) + set t | t in payloads
    ensures forall i | 0 <= i < |payloads| :: keys[i].Some? <==> payloads[i] in registrar.world
    ensures forall i | 0 <= i < |payloads| && keys[i].Some? ::
              keys[i].value in registrar.types && payloads[i] in registrar.names && registrar.names[payloads[i]] == keys[i].value
    ensures DocumentsClose(registrar.types)
    ensures R.Shallow(registrar.world, registrar.roots) ==>
              forall t, n: nat | R.Reaches(registrar.world, registrar.roots, t, n) && t in registrar.world ::
                t in registrar.names && registrar.names[t] in registrar.types
  {
    hide DocumentsClose, R.Filled, R.Shallow, R.Reaches, R.TypeRegistrar.Valid, R.TypeRegistrar.Complete;
    keys := [];
    var i := 0;
    while i < |payloads|
      invariant 0 <= i <= |payloads| && |keys| == i && registrar.Valid() && registrar.Complete()
      invariant registrar.roots == old(registrar.roots) + set t | t in payloads[..i]
      invariant forall j | 0 <= j < i :: keys[j].Some? <==> payloads[j] in registrar.world
      invariant forall j | 0 <= j < i && keys[j].Some? ::
                  keys[j].value in registrar.types && payloads[j] in registrar.names && registrar.names[payloads[j]] == keys[j].value
    {
      assert payloads[..i + 1] == payloads[..i] + [payloads[i]];
      var key := registrar.RegisterOutermost(payloads[i]);
      keys := keys + [key];
      i := i + 1;
    }
    assert payloads[..i] == payloads;
    CompleteDocumentsClose(registrar);
    if R.Shallow(registrar.world, registrar.roots) {
      AllReachedAreRegistered(registrar);
    }
  }

  lemma CompleteDocumentsClose(registrar: R.TypeRegistrar)
    requires registrar.Complete()
    ensures DocumentsClose(registrar.types)
  {
    ClosedDocumentsClose(registrar.types);
  }

  lemma AllReachedAreRegistered(registrar: R.TypeRegistrar)
    requires registrar.Valid() && registrar.Complete() && R.Shallow(registrar.world, registrar.roots)
    ensures forall t, n: nat | R.Reaches(registrar.world, registrar.roots, t, n) && t in registrar.world ::
              t in registrar.names && registrar.names[t] in registrar.types
  {
    forall t, n: nat | R.Reaches(registrar.world, registrar.roots, t, n) && t in registrar.world
      ensures t in registrar.names && registrar.names[t] in registrar.types
    {
      R.ReachedIsRegistered(registrar.world, registrar.names, registrar.roots, registrar.types, t, n);
    }
  }
}
