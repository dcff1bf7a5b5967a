/**
 Registering a struct and everything its fields refer to: an entry is made
 before its fields are followed, so types that refer to one another end, and
 when the outermost registration returns no entry points outside the registry.
 */
module RegistryClosure {
  import opened Wrappers
  import opened Naming

  const MAX_DEPTH: nat := 1000

  /** One leaf of a field's shape. */
  datatype Leaf =
    | To(target: TypeId)     // a struct not registered yet
    | Component(name: string) // the component it became
    | Plain                  // no reference, or one demoted because it could not register
    | Inline(fields: Leaves) // an anonymous struct

  datatype Leaves = NoLeaves | Leafed(head: Leaf, tail: Leaves)

  /** excluded: the field never reaches the document. */
  datatype Field = Field(excluded: bool, leaves: Leaves)

  /** The structs that can be read from source, with the leaves of their fields. */
  type World = map<TypeId, seq<Field>>

  // ----- what registration makes of a leaf

  /** A reference becomes its type's own component, or is demoted where the type has none or lies too deep. */
  predicate Stamps(w: World, names: map<TypeId, string>, raw: Leaf, leaf: Leaf, depth: nat)
    decreases raw
  {
    match raw
    case To(t) =>
      if leaf.Component? then t in w && t in names && leaf.name == names[t] && depth <= MAX_DEPTH
      else leaf == Plain && (t !in w || depth > MAX_DEPTH)
    case Component(_) => leaf == raw
    case Plain => leaf == raw
    case Inline(fields) => leaf.Inline? && StampsAll(w, names, fields, leaf.fields, depth + 1)
  }

  predicate StampsAll(w: World, names: map<TypeId, string>, raw: Leaves, leaves: Leaves, depth: nat)
    decreases raw
  {
    raw.Leafed? == leaves.Leafed?
    && (raw.Leafed? ==> Stamps(w, names, raw.head, leaves.head, depth) && StampsAll(w, names, raw.tail, leaves.tail, depth))
  }

  predicate IsRaw(l: Leaf) {
    !l.Component? && (l.Inline? ==> AreRaw(l.fields))
  }

  predicate AreRaw(ls: Leaves) {
    ls.Leafed? ==> IsRaw(ls.head) && AreRaw(ls.tail)
  }

  /** Every component a leaf names is registered, and nothing is left to register. */
  predicate PointsInside(l: Leaf, keys: set<string>) {
    match l
    case To(_) => false
    case Component(name) => name in keys
    case Plain => true
    case Inline(fields) => AllPointInside(fields, keys)
  }

  predicate AllPointInside(ls: Leaves, keys: set<string>) {
    ls.Leafed? ==> PointsInside(ls.head, keys) && AllPointInside(ls.tail, keys)
  }

  type Registry = map<string, seq<Field>>

  predicate FieldClosed(f: Field, keys: set<string>) {
    f.excluded || AllPointInside(f.leaves, keys)
  }

  /** The fields before the n-th point nowhere outside the registry. */
  predicate ClosedUpTo(fields: seq<Field>, n: nat, keys: set<string>)
    requires n <= |fields|
  {
    forall i | 0 <= i < n :: FieldClosed(fields[i], keys)
  }

  predicate Closed(r: Registry) {
    forall k <- r :: ClosedUpTo(r[k], |r[k]|, r.Keys)
  }

  /** Every entry but those still being filled is closed. */
  predicate ClosedBut(r: Registry, open: set<string>) {
    forall k <- r :: k in open || ClosedUpTo(r[k], |r[k]|, r.Keys)
  }

  // ----- more entries and names keep what holds

  lemma {:induction false} InsideMore(l: Leaf, keys: set<string>, more: set<string>)
    requires PointsInside(l, keys) && keys <= more
    ensures PointsInside(l, more)
    decreases l
  {
    if l.Inline? {
      AllInsideMore(l.fields, keys, more);
    }
  }

  lemma {:induction false} AllInsideMore(ls: Leaves, keys: set<string>, more: set<string>)
    requires AllPointInside(ls, keys) && keys <= more
    ensures AllPointInside(ls, more)
    decreases ls
  {
    if ls.Leafed? {
      InsideMore(ls.head, keys, more);
      AllInsideMore(ls.tail, keys, more);
    }
  }

  lemma ClosedMore(fields: seq<Field>, n: nat, keys: set<string>, more: set<string>)
    requires n <= |fields| && ClosedUpTo(fields, n, keys) && keys <= more
    ensures ClosedUpTo(fields, n, more)
  {
    forall i | 0 <= i < n ensures FieldClosed(fields[i], more) {
      assert FieldClosed(fields[i], keys);
      if !fields[i].excluded {
        AllInsideMore(fields[i].leaves, keys, more);
      }
    }
  }

  predicate Extends(names: map<TypeId, string>, more: map<TypeId, string>) {
    forall t <- names :: t in more && more[t] == names[t]
  }

  lemma {:induction false} StampsMore(w: World, names: map<TypeId, string>, more: map<TypeId, string>, raw: Leaf, leaf: Leaf, depth: nat)
    requires Stamps(w, names, raw, leaf, depth) && Extends(names, more)
    ensures Stamps(w, more, raw, leaf, depth)
    decreases raw
  {
    if raw.Inline? {
      StampsAllMore(w, names, more, raw.fields, leaf.fields, depth + 1);
    }
  }

  lemma {:induction false} StampsAllMore(w: World, names: map<TypeId, string>, more: map<TypeId, string>, raw: Leaves, leaves: Leaves, depth: nat)
    requires StampsAll(w, names, raw, leaves, depth) && Extends(names, more)
    ensures StampsAll(w, more, raw, leaves, depth)
    decreases raw
  {
    if raw.Leafed? {
      StampsMore(w, names, more, raw.head, leaves.head, depth);
      StampsAllMore(w, names, more, raw.tail, leaves.tail, depth);
    }
  }

  /** The first n fields of an entry are its type's own, each reference the component of the type it names. */
  predicate Filled(w: World, names: map<TypeId, string>, raw: seq<Field>, fields: seq<Field>, n: nat, depth: nat) {
    && |raw| == |fields| && n <= |raw|
    && forall i | 0 <= i < n ::
         fields[i].excluded == raw[i].excluded
         && (if raw[i].excluded then fields[i] == raw[i] else StampsAll(w, names, raw[i].leaves, fields[i].leaves, depth))
  }

  lemma FilledMore(w: World, names: map<TypeId, string>, more: map<TypeId, string>, raw: seq<Field>, fields: seq<Field>, n: nat, depth: nat)
    requires Filled(w, names, raw, fields, n, depth) && Extends(names, more)
    ensures Filled(w, more, raw, fields, n, depth)
  {
    forall i | 0 <= i < n && !raw[i].excluded ensures StampsAll(w, more, raw[i].leaves, fields[i].leaves, depth) {
      StampsAllMore(w, names, more, raw[i].leaves, fields[i].leaves, depth);
    }
  }

  // ----- how a type is reached

  /** A reference to t stands in the leaves, in nest anonymous structs. */
  predicate StandsIn(ls: Leaves, t: TypeId, nest: nat)
    decreases ls
  {
    ls.Leafed? && (StandsAt(ls.head, t, nest) || StandsIn(ls.tail, t, nest))
  }

  predicate StandsAt(l: Leaf, t: TypeId, nest: nat)
    decreases l
  {
    match l
    case To(target) => target == t && nest == 0
    case Inline(fields) => nest > 0 && StandsIn(fields, t, nest - 1)
    case _ => false
  }

  /** A field of p that reaches the document refers to t, in nest anonymous structs. */
  predicate Refers(w: World, p: TypeId, t: TypeId, nest: nat) {
    p in w && exists f <- w[p] :: !f.excluded && StandsIn(f.leaves, t, nest)
  }

  /** Each type of path refers to the next, from one of roots on; depth: how deep the last one lies. */
  ghost predicate Leads(w: World, roots: set<TypeId>, path: seq<TypeId>, depth: nat)
    decreases |path|
  {
    && path != []
    && if |path| == 1 then path[0] in roots && depth == 0
       else exists up: nat, nest: nat :: depth == up + 1 + nest && LeadsOn(w, roots, path, up, nest)
  }

  ghost predicate LeadsOn(w: World, roots: set<TypeId>, path: seq<TypeId>, up: nat, nest: nat)
    requires |path| > 1
    decreases |path|, 0
  {
    Leads(w, roots, path[..|path| - 1], up) && Refers(w, path[|path| - 2], path[|path| - 1], nest)
  }

  lemma LeadsFurther(w: World, roots: set<TypeId>, path: seq<TypeId>, up: nat, t: TypeId, nest: nat)
    requires Leads(w, roots, path, up) && Refers(w, path[|path| - 1], t, nest)
    ensures Leads(w, roots, path + [t], up + 1 + nest)
  {
    var more := path + [t];
    assert more[..|more| - 1] == path;
    assert LeadsOn(w, roots, more, up, nest);
  }

  lemma {:induction false} LeadsFromMore(w: World, roots: set<TypeId>, more: set<TypeId>, path: seq<TypeId>, depth: nat)
    requires Leads(w, roots, path, depth) && roots <= more
    ensures Leads(w, more, path, depth)
    decreases |path|
  {
    if |path| > 1 {
      var up: nat, nest: nat :| depth == up + 1 + nest && LeadsOn(w, roots, path, up, nest);
      LeadsFromMore(w, roots, more, path[..|path| - 1], up);
      assert LeadsOn(w, more, path, up, nest);
    }
  }

  predicate IsDistinct(path: seq<TypeId>) {
    forall i, j | 0 <= i < j < |path| :: path[i] != path[j]
  }

  predicate AllRegistered(names: map<TypeId, string>, r: Registry, path: seq<TypeId>) {
    forall t <- path :: t in names && names[t] in r
  }

  /** The leaves stand in the fields of p, in nest anonymous structs. */
  ghost predicate StandsUnder(w: World, p: TypeId, ls: Leaves, nest: nat) {
    forall t, more: nat :: StandsIn(ls, t, more) ==> Refers(w, p, t, nest + more)
  }

  // ----- entries are their types' own

  /** Entry k is that of t, reached along path at depth, with the fields of t and nothing else. */
  ghost predicate IsOwn(w: World, names: map<TypeId, string>, roots: set<TypeId>, r: Registry, k: string, t: TypeId, path: seq<TypeId>, depth: nat)
    requires k in r
  {
    && t in w && t in names && names[t] == k && depth <= MAX_DEPTH
    && path != [] && path[|path| - 1] == t && IsDistinct(path) && Leads(w, roots, path, depth) && AllRegistered(names, r, path)
    && Filled(w, names, w[t], r[k], |w[t]|, depth + 1)
  }

  /** Every entry but those in open is the own one of some type reached. */
  ghost predicate Owned(w: World, names: map<TypeId, string>, roots: set<TypeId>, r: Registry, open: set<string>) {
    forall k <- r :: k in open || exists t, path, depth: nat :: IsOwn(w, names, roots, r, k, t, path, depth)
  }

  lemma OwnedBut(w: World, names: map<TypeId, string>, roots: set<TypeId>, r: Registry, open: set<string>, more: set<string>)
    requires Owned(w, names, roots, r, open) && open <= more
    ensures Owned(w, names, roots, r, more)
  {
  }

  lemma OwnedKept(w: World, names: map<TypeId, string>, more: map<TypeId, string>, roots: set<TypeId>, roots2: set<TypeId>,
                  r: Registry, next: Registry, open: set<string>)
    requires Owned(w, names, roots, r, open) && Extends(names, more) && roots <= roots2 && r.Keys <= next.Keys
    requires forall k <- next :: k in open || (k in r && next[k] == r[k])
    ensures Owned(w, more, roots2, next, open)
  {
    forall k | k in next && k !in open ensures exists t, path, depth: nat :: IsOwn(w, more, roots2, next, k, t, path, depth) {
      var t, path, depth: nat :| IsOwn(w, names, roots, r, k, t, path, depth);
      LeadsFromMore(w, roots, roots2, path, depth);
      FilledMore(w, names, more, w[t], r[k], |w[t]|, depth + 1);
      assert IsOwn(w, more, roots2, next, k, t, path, depth);
    }
  }

  // ----- everything reachable is registered

  /** t is reached from one of roots by following n references. */
  ghost predicate Reaches(w: World, roots: set<TypeId>, t: TypeId, n: nat)
    decreases n
  {
    if n == 0 then t in roots else exists p, nest: nat :: Reaches(w, roots, p, n - 1) && Refers(w, p, t, nest)
  }

  /** No chain of different types lies deeper than the limit. */
  ghost predicate Shallow(w: World, roots: set<TypeId>) {
    forall path, depth: nat :: IsDistinct(path) && Leads(w, roots, path, depth) ==> depth <= MAX_DEPTH
  }

  /** A reference to a declared type is stamped, and so lies in the registry, unless it lies too deep. */
  lemma {:induction false} StampedWhereItStands(w: World, names: map<TypeId, string>, keys: set<string>, raw: Leaves, leaves: Leaves, depth: nat,
                                                t: TypeId, nest: nat)
    requires StampsAll(w, names, raw, leaves, depth) && AllPointInside(leaves, keys)
    requires StandsIn(raw, t, nest) && t in w && depth + nest <= MAX_DEPTH
    ensures t in names && names[t] in keys
    decreases raw
  {
    if StandsAt(raw.head, t, nest) {
      if raw.head.Inline? {
        StampedWhereItStands(w, names, keys, raw.head.fields, leaves.head.fields, depth + 1, t, nest - 1);
      }
    } else {
      StampedWhereItStands(w, names, keys, raw.tail, leaves.tail, depth, t, nest);
    }
  }

  /** What a registered type refers to is registered, where no chain is too deep. */
  lemma ReferredIsRegistered(w: World, names: map<TypeId, string>, roots: set<TypeId>, r: Registry, p: TypeId, t: TypeId, nest: nat)
    requires IsInjective(names) && Closed(r) && Owned(w, names, roots, r, {}) && Shallow(w, roots)
    requires p in names && names[p] in r && t in w && Refers(w, p, t, nest)
    ensures t in names && names[t] in r
  {
    hide Leads, Reaches, StandsIn, StampsAll, Stamps, AllPointInside;
    var k := names[p];
    var q, path, depth: nat :| IsOwn(w, names, roots, r, k, q, path, depth);
    assert q == p;
    if t !in path {
      LeadsFurther(w, roots, path, depth, t, nest);
      assert IsDistinct(path + [t]);
      var f :| f in w[p] && !f.excluded && StandsIn(f.leaves, t, nest);
      var i :| 0 <= i < |w[p]| && w[p][i] == f;
      assert FieldClosed(r[k][i], r.Keys);
      StampedWhereItStands(w, names, r.Keys, f.leaves, r[k][i].leaves, depth + 1, t, nest);
    }
  }

  /** Every declared type that can be reached is registered, where no chain is too deep. */
  lemma {:induction false} ReachedIsRegistered(w: World, names: map<TypeId, string>, roots: set<TypeId>, r: Registry, t: TypeId, n: nat)
    requires IsInjective(names) && Closed(r) && Owned(w, names, roots, r, {}) && Shallow(w, roots)
    requires forall k <- roots :: k in w ==> k in names && names[k] in r
    requires Reaches(w, roots, t, n) && t in w
    ensures t in names && names[t] in r
    decreases n
  {
    if n > 0 {
      var p, nest: nat :| Reaches(w, roots, p, n - 1) && Refers(w, p, t, nest);
      ReachedIsRegistered(w, names, roots, r, p, n - 1);
      ReferredIsRegistered(w, names, roots, r, p, t, nest);
    }
  }

  lemma {:induction false} LeadsReaches(w: World, roots: set<TypeId>, path: seq<TypeId>, depth: nat)
    requires Leads(w, roots, path, depth)
    ensures Reaches(w, roots, path[|path| - 1], |path| - 1)
    decreases |path|
  {
    if |path| > 1 {
      var up: nat, nest: nat :| depth == up + 1 + nest && LeadsOn(w, roots, path, up, nest);
      LeadsReaches(w, roots, path[..|path| - 1], up);
    }
  }

  /** And nothing else is: every entry belongs to a type that can be reached. */
  lemma RegisteredIsReached(w: World, names: map<TypeId, string>, roots: set<TypeId>, r: Registry, k: string)
    requires Owned(w, names, roots, r, {}) && k in r
    ensures exists t, n: nat :: t in w && t in names && names[t] == k && Reaches(w, roots, t, n)
  {
    var t, path, depth: nat :| IsOwn(w, names, roots, r, k, t, path, depth);
    LeadsReaches(w, roots, path, depth);
  }

  // ----- the registry

  /** The entry of t under name is filled up to its n-th field, and all others but those in open are closed. */
  predicate FilledUpTo(w: World, names: map<TypeId, string>, r: Registry, t: TypeId, name: string, n: nat, depth: nat, open: set<string>) {
    && t in w && n <= |w[t]| && name in r && |r[name]| == |w[t]|
    && ClosedUpTo(r[name], n, r.Keys) && Filled(w, names, w[t], r[name], n, depth + 1)
    && (forall j | n <= j < |w[t]| :: r[name][j] == w[t][j])
    && ClosedBut(r, open + {name})
  }

  /** Filling one field more, when the registry has grown meanwhile. */
  lemma OneMoreFilled(w: World, was: map<TypeId, string>, names: map<TypeId, string>, before: Registry, r: Registry, t: TypeId, name: string,
                      i: nat, leaves: Leaves, depth: nat, open: set<string>)
    requires FilledUpTo(w, was, before, t, name, i, depth, open) && i < |w[t]| && Extends(was, names)
    requires before.Keys <= r.Keys && r[name] == before[name] && ClosedBut(r, open + {name})
    requires !w[t][i].excluded && AllPointInside(leaves, r.Keys) && StampsAll(w, names, w[t][i].leaves, leaves, depth + 1)
    ensures var next := r[name := r[name][i := w[t][i].(leaves := leaves)]];
            FilledUpTo(w, names, next, t, name, i + 1, depth, open) && next.Keys == r.Keys
  {
    hide StampsAll, AllPointInside, Extends;
    ClosedMore(before[name], i, before.Keys, r.Keys);
    FilledMore(w, was, names, w[t], before[name], i, depth + 1);
    var next := r[name := r[name][i := w[t][i].(leaves := leaves)]];
    assert next.Keys == r.Keys;
    forall j | 0 <= j < i + 1 ensures FieldClosed(next[name][j], next.Keys) {
      assert j < i ==> FieldClosed(r[name][j], r.Keys);
    }
  }

  class TypeRegistrar {
    const world: World
    var names: map<TypeId, string>
    var types: Registry
    ghost var roots: set<TypeId> // the types registered by themselves so far

    /** Names never collide, registered types are named, and nothing from source is registered yet where it stands. */
    ghost predicate Valid()
      reads this
    {
      && IsInjective(names) && types.Keys <= names.Values
      && (forall t <- world, f <- world[t] :: AreRaw(f.leaves))
    }

    /** Every entry but those in open is closed, and its type's own. */
    ghost predicate Settled(open: set<string>)
      reads this
    {
      open <= types.Keys && ClosedBut(types, open) && Owned(world, names, roots, types, open)
    }

    /** Nothing is left to register. */
    ghost predicate Complete()
      reads this
    {
      Closed(types) && Owned(world, names, roots, types, {}) && forall t <- roots :: t in world ==> t in names && names[t] in types
    }

    constructor (world: World)
      requires forall t <- world, f <- world[t] :: AreRaw(f.leaves)
      ensures Valid() && Complete() && this.world == world && types == map[] && roots == {}
    {
      this.world := world;
      names := map[];
      types := map[];
      roots := {};
    }

    /** What a registration may do: add names and closed entries, and leave those being filled alone. */
    ghost predicate Grew(oldNames: map<TypeId, string>, oldTypes: Registry, oldRoots: set<TypeId>, open: set<string>)
      reads this
    {
      && Valid() && Extends(oldNames, names) && oldTypes.Keys <= types.Keys && roots == oldRoots
      && (forall k <- oldTypes :: types[k] == oldTypes[k])
      && Settled(open)
    }

    /** The types followed to get here, the last of them at depth up. */
    ghost predicate Along(path: seq<TypeId>, up: nat)
      reads this
    {
      IsDistinct(path) && Leads(world, roots, path, up) && AllRegistered(names, types, path)
    }

    /** Registers t and all it refers to; path: the types followed to get here; open: the entries now being filled. */
    method RegisterType(t: TypeId, depth: nat, ghost path: seq<TypeId>, ghost open: set<string>) returns (key: Option<string>)
      requires Valid() && Settled(open) && Leads(world, roots, path + [t], depth) && IsDistinct(path) && AllRegistered(names, types, path)
      modifies this
      ensures Grew(old(names), old(types), old(roots), open)
      ensures key.Some? <==> t in world && depth <= MAX_DEPTH
      ensures key.Some? ==> t in names && key.value == names[t] && key.value in types
      ensures key.Some? && key.value !in old(types) ==> Filled(world, names, world[t], types[key.value], |world[t]|, depth + 1)
      decreases MAX_DEPTH + 1 - depth, 1, 0
    {
      hide Filled, StampsAll, Owned, ClosedBut, IsInjective, AreRaw, Leads, IsOwn;
      if depth > MAX_DEPTH || t !in world {
        return None;
      }
      var name := NameOf(names, t);
      ghost var before := names;
      NameOne(t);
      names := names[t := name];
      OwnedKept(world, before, names, roots, roots, types, types, open);
      if name !in types {
        RegisterNew(t, name, depth, path, open);
      }
      key := Some(name);
    }

    /** Makes t's entry, and then follows its fields. */
    method RegisterNew(t: TypeId, name: string, depth: nat, ghost path: seq<TypeId>, ghost open: set<string>)
      requires Valid() && Settled(open) && Leads(world, roots, path + [t], depth) && IsDistinct(path) && AllRegistered(names, types, path)
      requires depth <= MAX_DEPTH && t in world && t in names && names[t] == name && name in names.Values && name !in types
      modifies this
      ensures Grew(old(names), old(types), old(roots), open)
      ensures name in types && Filled(world, names, world[t], types[name], |world[t]|, depth + 1)
      decreases MAX_DEPTH + 1 - depth, 0, 2
    {
      hide Filled, StampsAll, Owned, ClosedBut, IsInjective, AreRaw, Leads, IsOwn;
      ghost var was := types;
      types := types[name := world[t]];
      Opening(was, name, world[t], open);
      OwnedBut(world, names, roots, was, open, open + {name});
      OwnedKept(world, names, names, roots, roots, was, types, open + {name});
      FillFields(t, name, depth, path + [t], open);
    }

    lemma NameOne(t: TypeId)
      requires Valid()
      ensures var more := names[t := NameOf(names, t)];
              IsInjective(more) && Extends(names, more) && names.Values <= more.Values && more[t] in more.Values
    {
      var more := names[t := NameOf(names, t)];
      if t in names {
        assert more == names;
      } else {
        InjectiveMore(names, t, NameOf(names, t));
        ValuesMore(names, t, NameOf(names, t));
      }
      assert more[t] in more.Values;
    }

    lemma Opening(r: Registry, name: string, fields: seq<Field>, open: set<string>)
      requires ClosedBut(r, open) && name !in r
      ensures ClosedBut(r[name := fields], open + {name})
    {
      var more := r[name := fields];
      forall k | k in more && k !in open + {name} ensures ClosedUpTo(more[k], |more[k]|, more.Keys) {
        ClosedMore(r[k], |r[k]|, r.Keys, more.Keys);
      }
    }

    /** Follows one field. */
    method FillField(t: TypeId, name: string, i: nat, depth: nat, ghost path: seq<TypeId>, ghost open: set<string>)
      requires Valid() && FilledUpTo(world, names, types, t, name, i, depth, open) && i < |world[t]| && depth <= MAX_DEPTH
      requires name !in open && open <= types.Keys && Owned(world, names, roots, types, open + {name})
      requires Along(path, depth) && path[|path| - 1] == t
      modifies this
      ensures Valid() && Extends(old(names), names) && old(types).Keys <= types.Keys && roots == old(roots)
      ensures forall k <- old(types) :: k != name ==> types[k] == old(types)[k]
      ensures FilledUpTo(world, names, types, t, name, i + 1, depth, open) && Owned(world, names, roots, types, open + {name})
      decreases MAX_DEPTH + 1 - depth, 0, 0
    {
      var field := world[t][i];
      assert field in world[t] && types[name][i] == field;
      if !field.excluded {
        ghost var was, some := types, names;
        var leaves := RegisterLeaves(field.leaves, depth + 1, path, depth, open + {name});
        assert types[name] == was[name];
        OneMoreFilled(world, some, names, was, types, t, name, i, leaves, depth, open);
        hide ClosedBut, ClosedUpTo, Filled, FieldClosed, AllPointInside, StampsAll, AreRaw;
        was := types;
        types := types[name := types[name][i := field.(leaves := leaves)]];
        OwnedKept(world, names, names, roots, roots, was, types, open + {name});
      }
    }

    /** Follows the fields of the entry under name, one by one. */
    method FillFields(t: TypeId, name: string, depth: nat, ghost path: seq<TypeId>, ghost open: set<string>)
      requires Valid() && t in world && name in types && types[name] == world[t] && depth <= MAX_DEPTH && t in names && names[t] == name
      requires name !in open && open <= types.Keys && ClosedBut(types, open + {name}) && Owned(world, names, roots, types, open + {name})
      requires Along(path, depth) && path[|path| - 1] == t
      modifies this
      ensures Valid() && Extends(old(names), names) && old(types).Keys <= types.Keys && roots == old(roots)
      ensures forall k <- old(types) :: k != name ==> types[k] == old(types)[k]
      ensures name in types && ClosedBut(types, open) && Owned(world, names, roots, types, open)
      ensures Filled(world, names, world[t], types[name], |world[t]|, depth + 1)
      decreases MAX_DEPTH + 1 - depth, 0, 1
    {
      var i := 0;
      while i < |world[t]|
        invariant 0 <= i <= |world[t]| && Valid() && Extends(old(names), names) && old(types).Keys <= types.Keys && roots == old(roots)
        invariant forall k <- old(types) :: k != name ==> types[k] == old(types)[k]
        invariant FilledUpTo(world, names, types, t, name, i, depth, open) && Owned(world, names, roots, types, open + {name})
      {
        FillField(t, name, i, depth, path, open);
        i := i + 1;
      }
      NowOwned(t, name, depth, path, open);
    }

    /** The entry just filled is its type's own. */
    lemma NowOwned(t: TypeId, name: string, depth: nat, path: seq<TypeId>, open: set<string>)
      requires t in world && t in names && names[t] == name && name in types && depth <= MAX_DEPTH
      requires Owned(world, names, roots, types, open + {name}) && Along(path, depth) && path[|path| - 1] == t
      requires Filled(world, names, world[t], types[name], |world[t]|, depth + 1)
      ensures Owned(world, names, roots, types, open)
    {
      assert IsOwn(world, names, roots, types, name, t, path, depth);
    }

    /** Registers what a shape's leaves refer to, an anonymous struct's one level deeper. */
    method RegisterLeaves(raw: Leaves, depth: nat, ghost path: seq<TypeId>, ghost up: nat, ghost open: set<string>) returns (leaves: Leaves)
      requires Valid() && AreRaw(raw) && Settled(open)
      requires Along(path, up) && up < depth && StandsUnder(world, path[|path| - 1], raw, depth - up - 1)
      modifies this
      ensures Grew(old(names), old(types), old(roots), open)
      ensures AllPointInside(leaves, types.Keys) && StampsAll(world, names, raw, leaves, depth)
      decreases if depth <= MAX_DEPTH then MAX_DEPTH + 1 - depth else 0, 2, raw
    {
      match raw {
        case NoLeaves => leaves := NoLeaves;
        case Leafed(head, tail) =>
          PartsStandUnder(raw, path[|path| - 1], depth - up - 1);
          var first := RegisterLeaf(head, depth, path, up, open);
          ghost var keys, some := types.Keys, names;
          var rest := RegisterLeaves(tail, depth, path, up, open);
          InsideMore(first, keys, types.Keys);
          StampsMore(world, some, names, head, first, depth);
          leaves := Leafed(first, rest);
      }
    }

    method RegisterLeaf(raw: Leaf, depth: nat, ghost path: seq<TypeId>, ghost up: nat, ghost open: set<string>) returns (leaf: Leaf)
      requires Valid() && IsRaw(raw) && Settled(open)
      requires Along(path, up) && up < depth && StandsUnder(world, path[|path| - 1], Leafed(raw, NoLeaves), depth - up - 1)
      modifies this
      ensures Grew(old(names), old(types), old(roots), open)
      ensures PointsInside(leaf, types.Keys) && Stamps(world, names, raw, leaf, depth)
      decreases if depth <= MAX_DEPTH then MAX_DEPTH + 1 - depth else 0, 2, raw
    {
      match raw {
        case To(target) =>
          assert StandsIn(Leafed(raw, NoLeaves), target, 0);
          LeadsFurther(world, roots, path, up, target, depth - up - 1);
          var key := RegisterType(target, depth, path, open);
          leaf := if key.Some? then Component(key.value) else Plain;
        case Inline(fields) =>
          InlineStandsUnder(raw, path[|path| - 1], depth - up - 1);
          var inner := RegisterLeaves(fields, depth + 1, path, up, open);
          leaf := Inline(inner);
        case Plain => leaf := Plain;
      }
    }

    lemma PartsStandUnder(raw: Leaves, p: TypeId, nest: nat)
      requires raw.Leafed? && StandsUnder(world, p, raw, nest)
      ensures StandsUnder(world, p, Leafed(raw.head, NoLeaves), nest) && StandsUnder(world, p, raw.tail, nest)
    {
      forall t, more: nat | StandsIn(Leafed(raw.head, NoLeaves), t, more) || StandsIn(raw.tail, t, more) ensures Refers(world, p, t, nest + more) {
        assert !StandsIn(NoLeaves, t, more);
        assert StandsIn(raw, t, more);
      }
    }

    lemma InlineStandsUnder(raw: Leaf, p: TypeId, nest: nat)
      requires raw.Inline? && StandsUnder(world, p, Leafed(raw, NoLeaves), nest)
      ensures StandsUnder(world, p, raw.fields, nest + 1)
    {
      forall t, more: nat | StandsIn(raw.fields, t, more) ensures Refers(world, p, t, nest + 1 + more) {
        assert StandsIn(Leafed(raw, NoLeaves), t, more + 1);
      }
    }

    /** From a complete registry to a complete one, around any cycle of types. */
    method RegisterOutermost(t: TypeId) returns (key: Option<string>)
      requires Valid() && Complete()
      modifies this
      ensures Valid() && Complete() && Extends(old(names), names) && roots == old(roots) + {t}
      ensures old(types).Keys <= types.Keys && forall k <- old(types) :: types[k] == old(types)[k]
      ensures key.Some? <==> t in world
      ensures key.Some? ==> t in names && key.value == names[t] && key.value in types
      ensures key.Some? && key.value !in old(types) ==> Filled(world, names, world[t], types[key.value], |world[t]|, 1)
    {
      hide Filled, StampsAll, ClosedUpTo, FieldClosed, Refers;
      ghost var was := roots;
      roots := roots + {t};
      OwnedKept(world, names, names, was, roots, types, types, {});
      assert [] + [t] == [t] && Leads(world, roots, [t], 0);
      key := RegisterType(t, 0, [], {});
    }
  }
}
