/**
 Go's method promotion over a possibly cyclic graph of embedded types: the walk
 the analysis does, which stops at a type it is already inside of, and the
 meaning it must have, over the infinite unfolding of the graph.
 */
module MethodSets {
  import opened Wrappers

  type TypeKey = string
  type Method = string

  /** What an embedded field or a declaration names. */
  datatype Target =
    | Local(key: TypeKey)                             // a type declared in the module
    | WellKnown(name: string, methods: set<Method>)   // an out-of-module type whose methods are known
    | Unread                                          // a generic, builtin or third-party type

  datatype Field =
    | Embed(target: Target, ptr: bool, via: string, name: string)
    | Named(name: string)

  datatype Rhs =
    | Struct(fields: seq<Field>)
    | Names(target: Target, alias: bool)  // alias: `type T = U` rather than `type T U`
    | Other

  /** A method declared on a type: with the exact interface signature, on the pointer only. */
  datatype Own = Own(exact: bool, ptrOnly: bool)

  datatype Program = Program(decls: map<TypeKey, Rhs>, methods: map<TypeKey, map<Method, Own>>)

  datatype Entry = Entry(depth: nat, exact: bool, ambiguous: bool, ptrOnly: bool, owner: string, via: string)

  type MethodSet = map<Method, Entry>

  /** The methods encoding/json dispatches to. */
  const JSON_METHODS: set<Method> :=
    {"MarshalJSON", "MarshalText", "MarshalJSONTo", "AppendText", "UnmarshalJSON", "UnmarshalText", "UnmarshalJSONFrom"}

  const FIELD_ENTRY := Entry(0, false, false, false, "", "")

  // ----- the walk

  function DeclaredOn(p: Program, t: TypeKey): MethodSet {
    if t in p.methods then map m | m in p.methods[t] :: Entry(0, p.methods[t][m].exact, false, p.methods[t][m].ptrOnly, t, "")
    else map[]
  }

  /** ms wins wherever both have an entry. */
  function Over(ms: MethodSet, deeper: MethodSet): MethodSet {
    deeper + ms
  }

  datatype EmbedMethods = EmbedMethods(via: string, methods: MethodSet, ptr: bool)

  function Candidate(e: Entry, em: EmbedMethods): Entry {
    Entry(e.depth + 1, e.exact, e.ambiguous, e.ptrOnly && !em.ptr, "", em.via)
  }

  /** Two embeds tying at the shallowest depth make a name ambiguous. */
  function Better(prev: Entry, cand: Entry): Entry {
    if cand.depth < prev.depth then cand
    else if cand.depth == prev.depth then Entry(cand.depth, false, true, false, "", "")
    else prev
  }

  function AddEmbed(out: MethodSet, em: EmbedMethods): MethodSet {
    out + map m | m in em.methods :: if m in out then Better(out[m], Candidate(em.methods[m], em)) else Candidate(em.methods[m], em)
  }

  /** What a struct's embedded fields promote into it. */
  function Promote(embeds: seq<EmbedMethods>): MethodSet
    decreases |embeds|
  {
    if embeds == [] then map[] else AddEmbed(Promote(embeds[..|embeds| - 1]), embeds[|embeds| - 1])
  }

  predicate HasField(fields: seq<Field>, m: Method) {
    m in JSON_METHODS && exists f <- fields :: f.name == m
  }

  /** A field named like one of the methods sits at the struct's own depth. */
  function WithFields(ms: MethodSet, fields: seq<Field>): MethodSet {
    ms + map f | f in fields && f.name in JSON_METHODS :: f.name := FIELD_ENTRY
  }

  function Unopened(p: Program, open: seq<TypeKey>): nat {
    |p.decls.Keys - set t | t in open|
  }

  lemma OpeningShrinks(p: Program, open: seq<TypeKey>, t: TypeKey)
    requires t in p.decls && t !in open
    ensures Unopened(p, open + [t]) < Unopened(p, open)
  {
    var a, b := p.decls.Keys - (set x | x in open), p.decls.Keys - (set x | x in open + [t]);
    assert a == b + {t};
  }

  /** The method set of t, its own methods included when keep; a type already open adds nothing. */
  function Walk(p: Program, t: TypeKey, keep: bool, open: seq<TypeKey>): MethodSet
    decreases Unopened(p, open), 0
  {
    if t in open then map[]
    else
      var own := if keep then DeclaredOn(p, t) else map[];
      if t !in p.decls then own
      else
        OpeningShrinks(p, open, t);
        Over(own, WalkRhs(p, p.decls[t], keep, open + [t]))
  }

  function WalkTarget(p: Program, target: Target, keep: bool, open: seq<TypeKey>): MethodSet
    decreases Unopened(p, open), 1
  {
    match target
    case Local(key) => Walk(p, key, keep, open)
    case WellKnown(name, methods) => if keep then map m | m in methods :: Entry(0, true, false, false, name, "") else map[]
    case Unread => map[]
  }

  function WalkEmbeds(p: Program, fields: seq<Field>, open: seq<TypeKey>): seq<EmbedMethods>
    decreases Unopened(p, open), 2, |fields|
  {
    if fields == [] then []
    else
      var rest, f := WalkEmbeds(p, fields[..|fields| - 1], open), fields[|fields| - 1];
      if f.Embed? then rest + [EmbedMethods(f.via, WalkTarget(p, f.target, true, open), f.ptr)] else rest
  }

  function WalkRhs(p: Program, rhs: Rhs, keep: bool, open: seq<TypeKey>): MethodSet
    decreases Unopened(p, open), 3
  {
    match rhs
    case Struct(fields) => WithFields(Promote(WalkEmbeds(p, fields, open)), fields)
    case Names(target, alias) => WalkTarget(p, target, keep && alias, open)
    case Other => map[]
  }

  // ----- occurrences

  /** One place a name stands at, as it reads from the type looked at. */
  datatype Occurrence = Occurrence(exact: bool, ptrOnly: bool, owner: string, via: string)

  /** Seen through an embedded field: a pointer embed reaches the pointer's methods too. */
  function Lift(o: Occurrence, f: Field): Occurrence
    requires f.Embed?
  {
    Occurrence(o.exact, o.ptrOnly && !f.ptr, "", f.via)
  }

  function LiftAll(os: seq<Occurrence>, f: Field): (r: seq<Occurrence>)
    requires f.Embed?
    ensures |r| == |os|
  {
    seq(|os|, i requires 0 <= i < |os| => Lift(os[i], f))
  }

  /** The declaration of m on t. */
  function OwnOccurrence(p: Program, t: TypeKey, m: Method): seq<Occurrence> {
    if t in p.methods && m in p.methods[t] then [Occurrence(p.methods[t][m].exact, p.methods[t][m].ptrOnly, t, "")] else []
  }

  /**
   Every occurrence of m exactly d embeddings below t, in the infinite
   unfolding of the graph.  seen: the types already passed on the chain of
   names t stands on, which cannot lead back into itself.
   */
  function Occurrences(p: Program, t: TypeKey, keep: bool, seen: seq<TypeKey>, m: Method, d: nat): seq<Occurrence>
    decreases d, Unopened(p, seen), 0
  {
    if t in seen then []
    else if d == 0 && keep && OwnOccurrence(p, t, m) != [] then OwnOccurrence(p, t, m)
    else if t !in p.decls then []
    else
      OpeningShrinks(p, seen, t);
      match p.decls[t]
      case Struct(fields) =>
        if d > 0 then OccurrencesBelow(p, fields, m, d - 1)
        else if HasField(fields, m) then [Occurrence(false, false, "", "")]
        else []
      case Names(target, alias) => OccurrencesAt(p, target, keep && alias, seen + [t], m, d)
      case Other => []
  }

  function OccurrencesAt(p: Program, target: Target, keep: bool, seen: seq<TypeKey>, m: Method, d: nat): seq<Occurrence>
    decreases d, Unopened(p, seen), 1
  {
    match target
    case Local(key) => Occurrences(p, key, keep, seen, m, d)
    case WellKnown(name, methods) => if d == 0 && keep && m in methods then [Occurrence(true, false, name, "")] else []
    case Unread => []
  }

  function OccurrencesBelow(p: Program, fields: seq<Field>, m: Method, d: nat): seq<Occurrence>
    decreases d, Unopened(p, []), 2, |fields|
  {
    if fields == [] then []
    else
      var rest, f := OccurrencesBelow(p, fields[..|fields| - 1], m, d), fields[|fields| - 1];
      if f.Embed? then rest + LiftAll(OccurrencesAt(p, f.target, true, [], m, d), f) else rest
  }

  /** The occurrences the walk meets: none inside a type already open. */
  function Met(p: Program, t: TypeKey, keep: bool, open: seq<TypeKey>, m: Method, d: nat): seq<Occurrence>
    decreases Unopened(p, open), 0
  {
    if t in open then []
    else if d == 0 && keep && OwnOccurrence(p, t, m) != [] then OwnOccurrence(p, t, m)
    else if t !in p.decls then []
    else
      OpeningShrinks(p, open, t);
      MetRhs(p, p.decls[t], keep, open + [t], m, d)
  }

  function MetAt(p: Program, target: Target, keep: bool, open: seq<TypeKey>, m: Method, d: nat): seq<Occurrence>
    decreases Unopened(p, open), 1
  {
    match target
    case Local(key) => Met(p, key, keep, open, m, d)
    case WellKnown(name, methods) => if d == 0 && keep && m in methods then [Occurrence(true, false, name, "")] else []
    case Unread => []
  }

  function MetBelow(p: Program, fields: seq<Field>, open: seq<TypeKey>, m: Method, d: nat): seq<Occurrence>
    decreases Unopened(p, open), 2, |fields|
  {
    if fields == [] then []
    else
      var rest, f := MetBelow(p, fields[..|fields| - 1], open, m, d), fields[|fields| - 1];
      if f.Embed? then rest + LiftAll(MetAt(p, f.target, true, open, m, d), f) else rest
  }

  function MetRhs(p: Program, rhs: Rhs, keep: bool, open: seq<TypeKey>, m: Method, d: nat): seq<Occurrence>
    decreases Unopened(p, open), 3
  {
    match rhs
    case Struct(fields) =>
      if d > 0 then MetBelow(p, fields, open, m, d - 1)
      else if HasField(fields, m) then [Occurrence(false, false, "", "")]
      else []
    case Names(target, alias) => MetAt(p, target, keep && alias, open, m, d)
    case Other => []
  }

  // ----- selection

  /** Go's rule: the shallowest depth m occurs at, and only if it occurs there once. */
  ghost predicate Selects(e: Option<Entry>, occ: nat -> seq<Occurrence>) {
    match e
    case None => forall d: nat :: occ(d) == []
    case Some(x) =>
      && (forall d: nat | d < x.depth :: occ(d) == [])
      && occ(x.depth) != []
      && (x.ambiguous <==> |occ(x.depth)| > 1)
      && (!x.ambiguous ==>
            var o := occ(x.depth)[0];
            x == Entry(x.depth, o.exact, false, o.ptrOnly, o.owner, o.via))
  }

  function Get(ms: MethodSet, m: Method): Option<Entry> {
    if m in ms then Some(ms[m]) else None
  }

  /** all: occ, and what stands below f one embedding deeper. */
  ghost predicate Joins(occ: nat -> seq<Occurrence>, below: nat -> seq<Occurrence>, f: Field, all: nat -> seq<Occurrence>) {
    f.Embed? && occ(0) == [] && all(0) == [] && forall d: nat :: all(d + 1) == occ(d + 1) + LiftAll(below(d), f)
  }

  lemma JoinsAt(occ: nat -> seq<Occurrence>, below: nat -> seq<Occurrence>, f: Field, all: nat -> seq<Occurrence>, d: nat)
    requires Joins(occ, below, f, all)
    ensures d == 0 ==> all(d) == [] && occ(d) == []
    ensures d > 0 ==> all(d) == occ(d) + LiftAll(below(d - 1), f)
  {
    if d > 0 {
      assert all((d - 1) + 1) == occ((d - 1) + 1) + LiftAll(below(d - 1), f);
    }
  }

  lemma SelectsBefore(e: Option<Entry>, occ: nat -> seq<Occurrence>, d: nat)
    requires Selects(e, occ) && (e.Some? ==> d < e.value.depth)
    ensures occ(d) == []
  {
  }

  /** The field alone provides the name there, or provides it shallower. */
  lemma CandidateWins(prev: Option<Entry>, occ: nat -> seq<Occurrence>, x: Entry, below: nat -> seq<Occurrence>, em: EmbedMethods, f: Field, all: nat -> seq<Occurrence>)
    requires Joins(occ, below, f, all) && Selects(prev, occ) && Selects(Some(x), below) && em.ptr == f.ptr && em.via == f.via
    requires prev.Some? ==> x.depth + 1 < prev.value.depth
    ensures Selects(Some(Candidate(x, em)), all)
  {
    forall d: nat | d <= x.depth + 1 ensures d <= x.depth ==> all(d) == [] {
      JoinsAt(occ, below, f, all, d);
      SelectsBefore(prev, occ, d);
      if 0 < d <= x.depth {
        SelectsBefore(Some(x), below, d - 1);
      }
    }
    JoinsAt(occ, below, f, all, x.depth + 1);
    SelectsBefore(prev, occ, x.depth + 1);
    assert all(x.depth + 1) == LiftAll(below(x.depth), f);
  }

  lemma PreviousWins(x: Entry, occ: nat -> seq<Occurrence>, other: Option<Entry>, below: nat -> seq<Occurrence>, f: Field, all: nat -> seq<Occurrence>)
    requires Joins(occ, below, f, all) && Selects(Some(x), occ) && Selects(other, below)
    requires other.Some? ==> x.depth < other.value.depth + 1
    ensures Selects(Some(x), all)
  {
    forall d: nat | d <= x.depth ensures all(d) == occ(d) {
      JoinsAt(occ, below, f, all, d);
      if d > 0 {
        SelectsBefore(other, below, d - 1);
      }
    }
  }

  lemma BothTie(x: Entry, occ: nat -> seq<Occurrence>, y: Entry, below: nat -> seq<Occurrence>, f: Field, all: nat -> seq<Occurrence>)
    requires Joins(occ, below, f, all) && Selects(Some(x), occ) && Selects(Some(y), below) && x.depth == y.depth + 1
    ensures Selects(Some(Entry(x.depth, false, true, false, "", "")), all)
  {
    forall d: nat | d < x.depth ensures all(d) == [] {
      JoinsAt(occ, below, f, all, d);
      if d > 0 {
        SelectsBefore(Some(y), below, d - 1);
      }
    }
    JoinsAt(occ, below, f, all, x.depth);
  }

  lemma NeitherSelects(occ: nat -> seq<Occurrence>, below: nat -> seq<Occurrence>, f: Field, all: nat -> seq<Occurrence>)
    requires Joins(occ, below, f, all) && Selects(None, occ) && Selects(None, below)
    ensures Selects(None, all)
  {
    forall d: nat ensures all(d) == [] {
      JoinsAt(occ, below, f, all, d);
    }
  }

  /** One more embedded field, folded in. */
  lemma AddSelects(out: MethodSet, occ: nat -> seq<Occurrence>, f: Field, ms: MethodSet, below: nat -> seq<Occurrence>, all: nat -> seq<Occurrence>, m: Method)
    requires Joins(occ, below, f, all) && Selects(Get(out, m), occ) && Selects(Get(ms, m), below)
    ensures Selects(Get(AddEmbed(out, EmbedMethods(f.via, ms, f.ptr)), m), all)
  {
    var em := EmbedMethods(f.via, ms, f.ptr);
    hide Selects, Joins;
    if m !in ms && m !in out {
      NeitherSelects(occ, below, f, all);
    } else if m !in ms {
      PreviousWins(out[m], occ, None, below, f, all);
    } else if m !in out || ms[m].depth + 1 < out[m].depth {
      CandidateWins(Get(out, m), occ, ms[m], below, em, f, all);
    } else if ms[m].depth + 1 == out[m].depth {
      BothTie(out[m], occ, ms[m], below, f, all);
    } else {
      PreviousWins(out[m], occ, Some(ms[m]), below, f, all);
    }
  }

  lemma SelectsAlike(e: Option<Entry>, a: nat -> seq<Occurrence>, b: nat -> seq<Occurrence>)
    requires Selects(e, a) && forall d: nat :: a(d) == b(d)
    ensures Selects(e, b)
  {
  }

  function ByDepth(p: Program, t: TypeKey, keep: bool, open: seq<TypeKey>, m: Method): nat -> seq<Occurrence> {
    (d: nat) => Met(p, t, keep, open, m, d)
  }

  function TargetByDepth(p: Program, target: Target, keep: bool, open: seq<TypeKey>, m: Method): nat -> seq<Occurrence> {
    (d: nat) => MetAt(p, target, keep, open, m, d)
  }

  function FieldsByDepth(p: Program, fields: seq<Field>, open: seq<TypeKey>, m: Method): nat -> seq<Occurrence> {
    (d: nat) => if d == 0 then [] else MetBelow(p, fields, open, m, d - 1)
  }

  function RhsByDepth(p: Program, rhs: Rhs, keep: bool, open: seq<TypeKey>, m: Method): nat -> seq<Occurrence> {
    (d: nat) => MetRhs(p, rhs, keep, open, m, d)
  }

  lemma NoFieldsSelect(p: Program, open: seq<TypeKey>, m: Method)
    ensures Selects(Get(Promote(WalkEmbeds(p, [], open)), m), FieldsByDepth(p, [], open, m))
  {
  }

  lemma {:induction false} EmbedsSelect(p: Program, fields: seq<Field>, open: seq<TypeKey>, m: Method)
    ensures Selects(Get(Promote(WalkEmbeds(p, fields, open)), m), FieldsByDepth(p, fields, open, m))
    decreases Unopened(p, open), 2, |fields|
  {
    hide Selects, Get, WalkTarget, AddEmbed;
    if fields == [] {
      NoFieldsSelect(p, open, m);
    } else {
      var rest, f := fields[..|fields| - 1], fields[|fields| - 1];
      EmbedsSelect(p, rest, open, m);
      if f.Embed? {
        TargetSelects(p, f.target, true, open, m);
        var below, em := WalkEmbeds(p, rest, open), EmbedMethods(f.via, WalkTarget(p, f.target, true, open), f.ptr);
        AddSelects(Promote(below), FieldsByDepth(p, rest, open, m), f, em.methods, TargetByDepth(p, f.target, true, open, m), FieldsByDepth(p, fields, open, m), m);
        assert WalkEmbeds(p, fields, open) == below + [em] && (below + [em])[..|below|] == below;
      } else {
        SelectsAlike(Get(Promote(WalkEmbeds(p, fields, open)), m), FieldsByDepth(p, rest, open, m), FieldsByDepth(p, fields, open, m));
      }
    }
  }

  lemma {:induction false} TargetSelects(p: Program, target: Target, keep: bool, open: seq<TypeKey>, m: Method)
    ensures Selects(Get(WalkTarget(p, target, keep, open), m), TargetByDepth(p, target, keep, open, m))
    decreases Unopened(p, open), 1
  {
    if target.Local? {
      WalkSelects(p, target.key, keep, open, m);
      SelectsAlike(Get(WalkTarget(p, target, keep, open), m), ByDepth(p, target.key, keep, open, m), TargetByDepth(p, target, keep, open, m));
    }
  }

  /** The walk selects among the occurrences it meets. */
  lemma {:induction false} WalkSelects(p: Program, t: TypeKey, keep: bool, open: seq<TypeKey>, m: Method)
    ensures Selects(Get(Walk(p, t, keep, open), m), ByDepth(p, t, keep, open, m))
    decreases Unopened(p, open), 0
  {
    if t !in open && t in p.decls {
      OpeningShrinks(p, open, t);
      RhsSelects(p, p.decls[t], keep, open + [t], m);
      if keep && OwnOccurrence(p, t, m) != [] {
        assert Walk(p, t, keep, open)[m] == DeclaredOn(p, t)[m];
      } else {
        SelectsAlike(Get(Walk(p, t, keep, open), m), RhsByDepth(p, p.decls[t], keep, open + [t], m), ByDepth(p, t, keep, open, m));
      }
    }
  }

  lemma {:induction false} RhsSelects(p: Program, rhs: Rhs, keep: bool, open: seq<TypeKey>, m: Method)
    ensures Selects(Get(WalkRhs(p, rhs, keep, open), m), RhsByDepth(p, rhs, keep, open, m))
    decreases Unopened(p, open), 3
  {
    match rhs
    case Struct(fields) =>
      EmbedsSelect(p, fields, open, m);
      if HasField(fields, m) {
        var f :| f in fields && f.name == m;
        assert WalkRhs(p, rhs, keep, open)[m] == FIELD_ENTRY;
      } else {
        SelectsAlike(Get(WalkRhs(p, rhs, keep, open), m), FieldsByDepth(p, fields, open, m), RhsByDepth(p, rhs, keep, open, m));
      }
    case Names(target, alias) =>
      TargetSelects(p, target, keep && alias, open, m);
      SelectsAlike(Get(WalkRhs(p, rhs, keep, open), m), TargetByDepth(p, target, keep && alias, open, m), RhsByDepth(p, rhs, keep, open, m));
    case Other =>
  }
}
