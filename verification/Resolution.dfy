/**
 Resolving the named types of a field or payload, and expanding the anonymous
 structs it meets, whose fields are resolved in turn: one recursion, which ends,
 opens no name twice, and never falls back to an untyped schema without noting
 why.
 */
module Resolution {
  import opened Wrappers
  import opened BuildTags
  import opened LiteralCycles

  type TypeKey = string

  const MAX_OPEN: nat := 9

  /** What a qualified name stands for, once its import is looked up. */
  datatype Qualified =
    | StructType(key: TypeKey, dir: string) // a struct of the module, declared in dir
    | NamedType(key: TypeKey)               // another named type of the module
    | KindBacked(builtin: string)           // a library type over a scalar
    | WellKnown(name: string)               // a library type with a schema of its own
    | Unknown                               // anything else

  /** A type as written. */
  datatype Written =
    | Boxed(box: Box, elem: Option<Written>)
    | Name(key: TypeKey)
    | Qualifies(name: string, q: Qualified)
    | Basic(name: string)
    | Generic(written: string)
    | Anonymous(key: Literal, written: string)
    | Unmodelled // chan, func

  datatype Mode = Identity | Underlying

  /** The methods encoding/json dispatches to that a type declares. */
  datatype Marshalers = NoMethods | TextBothWays | Methods(encode: bool)

  /** One declaration: an alias, or a defined type. */
  datatype Decl = Decl(alias: bool, rhs: Written)

  /**
   isStruct: the named type's chain ends at a struct, declared in dir, whose
   method set, with and without the type's own methods, is promoted or not.
   */
  datatype TypeInfo = TypeInfo(isStruct: bool, dir: string, structIdentity: Marshalers, structUnderlying: Marshalers,
                               methods: Marshalers, decls: seq<Decl>)

  /** A field an anonymous struct has or promotes, deeper embeddings down; excluded ones are not resolved. */
  datatype LiteralField = LiteralField(written: Written, param: bool, excluded: bool, deeper: nat)

  /** methods: what its embedded fields promote. */
  datatype LiteralInfo = LiteralInfo(methods: Marshalers, fields: seq<LiteralField>)

  datatype World = World(types: map<TypeKey, TypeInfo>, literals: map<Literal, LiteralInfo>)

  datatype Fallback = MarshalerNoted | RecursiveNoted | DepthCap | Unresolvable | DefinedOverQualified | DeclsDisagree | UntypedBuiltin | GenericNoted

  /** The names of the structs reached, with the directory that declares each. */
  type Refs = map<string, string>

  /**
   What a resolution hands back: the shape, the first fallback noted, whether a
   literal hit a limit (warned of by itself), the structs it refers to, the
   literals it expanded, and the expansion's state.
   */
  datatype Outcome = Outcome(shape: Shape, note: Option<Fallback>, limited: bool, refs: Refs, trees: Trees, st: State)

  /** The same for several declarations; clashed: two of them reach different structs by one name. */
  datatype Outcomes = Outcomes(shapes: seq<Shape>, note: Option<Fallback>, limited: bool, refs: Refs, clashed: bool, trees: Trees, st: State)

  datatype FieldsOutcome = FieldsOutcome(refs: Refs, trees: Trees, st: State)

  /** inline: anonymous structs are expanded; depth: that of the struct declaring the field. */
  datatype Context = Context(param: bool, byteElem: bool, inline: bool, depth: nat)

  const UNTYPED_BUILTINS: set<string> := {"error", "complex64", "complex128"}
  const WELL_KNOWN_NAMES: set<string> := {"time.Time", "time.Duration", "uuid.UUID", "json.RawMessage", "json.Number",
                                          "time.Month", "time.Weekday", "net.IP", "netip.Addr", "netip.Prefix", "netip.AddrPort"}

  function First(a: Option<Fallback>, b: Option<Fallback>): Option<Fallback> {
    if a.Some? then a else b
  }

  function Found(s: Shape, st: State): Outcome {
    Outcome(s, None, false, map[], NoTrees, st)
  }

  function Noted(s: Shape, why: Fallback, st: State): Outcome {
    Outcome(s, Some(why), false, map[], NoTrees, st)
  }

  function Refers(name: string, dir: string, st: State): Outcome {
    Outcome(Leaf(Reference, name), None, false, map[name := dir], NoTrees, st)
  }

  predicate IsByte(s: Shape) {
    s.Builtin? && (s.name == "byte" || s.name == "uint8")
  }

  /** Why a name must not be opened. */
  function Cut(stack: seq<TypeKey>, key: TypeKey): Option<Fallback> {
    if key in stack then Some(RecursiveNoted) else if |stack| >= MAX_OPEN then Some(DepthCap) else None
  }

  /** The scalar or byte slice a defined chain over a library type ends in. */
  function KindBackedUnderlying(q: Qualified): Option<Shape> {
    match q
    case KindBacked(b) => Some(Builtin(b))
    case WellKnown(name) =>
      if name == "json.RawMessage" || name == "net.IP" then Some(Container(Slice, Some(Builtin("byte"))))
      else if name == "json.Number" then Some(Builtin("string"))
      else None
    case _ => None
  }

  function FirstScalarKind(results: seq<Shape>): string {
    if results == [] then "" else if LeafKind(results[0]) != "" then LeafKind(results[0]) else FirstScalarKind(results[1..])
  }

  /** Open names left. */
  function Room(stack: seq<TypeKey>): int {
    MAX_OPEN - |stack|
  }

  /** Registration levels left. */
  function Levels(depth: nat): nat {
    if depth <= MAX_DEPTH then MAX_DEPTH + 1 - depth else 0
  }

  function InfoOf(w: World, key: Literal): LiteralInfo {
    if key in w.literals then w.literals[key] else LiteralInfo(NoMethods, [])
  }

  function FieldContext(f: LiteralField, depth: nat): Context {
    Context(f.param, false, !f.param, depth + f.deeper)
  }

  // ----- the recursion

  function Resolve(w: World, s: Written, c: Context, stack: seq<TypeKey>, st: State): (r: Outcome)
    ensures r.st.open == st.open
    decreases Levels(c.depth), Room(stack), 1, s
  {
    match s
    case Boxed(box, elem) =>
      if elem.Some? then
        var o := Resolve(w, elem.value, c.(byteElem := box == Slice), stack, st);
        o.(shape := Container(box, Some(o.shape)))
      else Found(Container(box, None), st)
    case Name(key) => ResolveLocal(w, key, c, stack, st, Identity)
    case Qualifies(name, q) =>
      (match q
       case StructType(key, dir) =>
         if !c.param && key in w.types && w.types[key].structIdentity != NoMethods then StructLeaf(w.types[key].structIdentity, key, st)
         else Refers(name, dir, st)
       case KindBacked(b) => Found(Builtin(b), st)
       case WellKnown(known) => Found(Leaf(Named, known), st)
       case NamedType(key) => ResolveLocal(w, key, c, stack, st, Identity)
       case Unknown => Noted(Leaf(Named, name), Unresolvable, st))
    case Basic(name) => if name in UNTYPED_BUILTINS then Noted(Builtin(name), UntypedBuiltin, st) else Found(Builtin(name), st)
    case Generic(written) => Noted(Leaf(Instantiation, written), GenericNoted, st)
    case Anonymous(key, written) => ResolveLiteral(w, key, written, c, stack, st)
    case Unmodelled => Found(Leaf(Sort.Unknown, ""), st)
  }

  function StructLeaf(m: Marshalers, key: TypeKey, st: State): Outcome {
    if m == TextBothWays then Found(Leaf(Text, key), st) else Noted(Leaf(Marshaler, key), MarshalerNoted, st)
  }

  /** An anonymous struct: kept as written, a Marshaler, cut, or expanded in place. */
  function ResolveLiteral(w: World, key: Literal, written: string, c: Context, stack: seq<TypeKey>, st: State): (r: Outcome)
    ensures r.st.open == st.open
    decreases Levels(c.depth), Room(stack), 0
  {
    if !c.inline then Found(Literal(false, written), st)
    else if InfoOf(w, key).methods != NoMethods then StructLeaf(InfoOf(w, key).methods, LITERAL_CUT.name, st)
    else if Closes(st, key) then Outcome(LITERAL_CUT, Some(RecursiveNoted), false, map[], Grown(Cycle, NoTrees), Joined(st, key))
    else if c.depth + 1 > MAX_DEPTH then Outcome(LITERAL_CUT, None, true, map[], Grown(TooDeep, NoTrees), st)
    else if st.open != [] && st.extracts >= MAX_EXTRACTIONS then Outcome(LITERAL_CUT, None, true, map[], Grown(TooMany, NoTrees), st)
    else
      var fs := ResolveFields(w, InfoOf(w, key).fields, c.depth + 1, Opened(st, key));
      Outcome(Literal(true, written), None, false, fs.refs, Grown(Expanded(key, fs.trees), NoTrees), Closed(fs.st))
  }

  /** Each field by itself, with no name open. */
  function ResolveFields(w: World, fields: seq<LiteralField>, depth: nat, st: State): (r: FieldsOutcome)
    ensures r.st.open == st.open
    decreases Levels(depth), MAX_OPEN + 1, 0, |fields|
  {
    if fields == [] then FieldsOutcome(map[], NoTrees, st)
    else
      var rest, f := ResolveFields(w, fields[..|fields| - 1], depth, st), fields[|fields| - 1];
      if f.excluded then rest
      else
        var o := Resolve(w, f.written, FieldContext(f, depth), [], rest.st);
        FieldsOutcome(o.refs + rest.refs, Append(rest.trees, o.trees), o.st)
  }

  function ResolveLocal(w: World, key: TypeKey, c: Context, stack: seq<TypeKey>, st: State, mode: Mode): (r: Outcome)
    ensures r.st.open == st.open
    decreases Levels(c.depth), Room(stack), 0
  {
    if key in w.types && w.types[key].isStruct then
      var m := if mode == Identity then w.types[key].structIdentity else w.types[key].structUnderlying;
      if !c.param && m != NoMethods then StructLeaf(m, key, st) else Refers(key, w.types[key].dir, st)
    else if Cut(stack, key).Some? then Noted(Leaf(Recursive, key), Cut(stack, key).value, st)
    else if key !in w.types || w.types[key].decls == [] then Noted(Leaf(Named, key), Unresolvable, st)
    else if mode == Identity && !c.param && w.types[key].methods != NoMethods then
      if w.types[key].methods == TextBothWays then Found(Leaf(Text, key), st)
      else
        // the quiet run: what it notes and refers to is discarded, and it expands nothing
        var under := ResolveDecls(w, key, w.types[key].decls, c.(inline := false), stack + [key], st, Underlying);
        if c.byteElem && !w.types[key].methods.encode && IsByte(under.shape) then Found(under.shape, st)
        else Noted(Leaf(Marshaler, key), MarshalerNoted, st)
    else ResolveDecls(w, key, w.types[key].decls, c, stack + [key], st, mode)
  }

  /** One shape for all declarations, or one scalar kind, or no schema. */
  function Merged(key: TypeKey, rs: Outcomes): Outcome
    requires rs.shapes != []
  {
    var merged := MergeAll(rs.shapes);
    if merged.Some? && !rs.clashed then Outcome(merged.value, rs.note, rs.limited, rs.refs, rs.trees, rs.st)
    else if FirstScalarKind(rs.shapes) != "" then Outcome(KindOnly(FirstScalarKind(rs.shapes)), rs.note, rs.limited, rs.refs, rs.trees, rs.st)
    else Outcome(Leaf(Named, key), First(rs.note, Some(DeclsDisagree)), rs.limited, rs.refs, rs.trees, rs.st)
  }

  /** All declarations of key, merged. */
  function ResolveDecls(w: World, key: TypeKey, decls: seq<Decl>, c: Context, stack: seq<TypeKey>, st: State, mode: Mode): (r: Outcome)
    requires decls != []
    ensures r.st.open == st.open
    decreases Levels(c.depth), Room(stack), 4, |decls|
  {
    Merged(key, ResolveEach(w, key, decls, c, stack, st, mode))
  }

  /** One name, two structs. */
  predicate Clashes(into: Refs, refs: Refs) {
    exists n <- refs :: n in into && into[n] != refs[n]
  }

  /** Each declaration refers to structs of its own, folded in order, the first of a name kept. */
  function ResolveEach(w: World, key: TypeKey, decls: seq<Decl>, c: Context, stack: seq<TypeKey>, st: State, mode: Mode): (r: Outcomes)
    ensures |r.shapes| == |decls| && r.st.open == st.open
    decreases Levels(c.depth), Room(stack), 3, |decls|
  {
    if decls == [] then Outcomes([], None, false, map[], false, NoTrees, st)
    else
      var rest := ResolveEach(w, key, decls[..|decls| - 1], c, stack, st, mode);
      var last := ResolveDecl(w, key, decls[|decls| - 1], c, stack, rest.st, mode);
      AddDecl(rest, last)
  }

  function AddDecl(rest: Outcomes, last: Outcome): Outcomes {
    Outcomes(rest.shapes + [last.shape], First(rest.note, last.note), rest.limited || last.limited,
             last.refs + rest.refs, rest.clashed || Clashes(rest.refs, last.refs), Append(rest.trees, last.trees), last.st)
  }

  function ResolveDecl(w: World, key: TypeKey, d: Decl, c: Context, stack: seq<TypeKey>, st: State, mode: Mode): (r: Outcome)
    ensures r.st.open == st.open
    decreases Levels(c.depth), Room(stack), 2
  {
    if mode == Identity && d.alias then Resolve(w, d.rhs, c, stack, st)
    else
      match d.rhs
      case Name(target) => ResolveLocal(w, target, c, stack, st, Underlying)
      case Qualifies(name, q) =>
        if KindBackedUnderlying(q).Some? then Found(KindBackedUnderlying(q).value, st)
        else if q.NamedType? || q.StructType? then ResolveLocal(w, q.key, c, stack, st, Underlying)
        else Noted(Leaf(Named, key), DefinedOverQualified, st)
      case _ => Resolve(w, d.rhs, c, stack, st)
  }

  // ----- fallback leaves

  /** A leaf documented as an untyped schema. */
  predicate IsFallbackLeaf(s: Shape) {
    match s
    case Builtin(name) => name == "uintptr" || name in UNTYPED_BUILTINS
    case KindOnly(_) => false
    case Literal(_, _) => false
    case Leaf(sort, name) =>
      if sort == Named then name !in WELL_KNOWN_NAMES else sort != Reference && sort != Text
    case Container(_, _) => false
  }

  function LeafOf(s: Shape): Option<Shape> {
    if s.Container? then (if s.elem.Some? then LeafOf(s.elem.value) else None) else Some(s)
  }

  predicate HoldsUintptr(s: Shape) {
    LeafOf(s) == Some(Builtin("uintptr"))
  }

  /** A leaf no note or warning is owed for: func and chan, or a literal at its limit, which warns by itself. */
  predicate IsExcused(s: Shape, limited: bool) {
    s == Leaf(Sort.Unknown, "") || (s == LITERAL_CUT && limited)
  }

  /** Wherever the shape falls back, something was noted. */
  predicate IsLoudShape(s: Shape, note: Option<Fallback>, limited: bool) {
    LeafOf(s).Some? && IsFallbackLeaf(LeafOf(s).value) ==>
      note.Some? || HoldsUintptr(s) || IsExcused(LeafOf(s).value, limited)
  }

  predicate IsLoud(o: Outcome) {
    IsLoudShape(o.shape, o.note, o.limited)
  }

  predicate AllLoud(shapes: seq<Shape>, note: Option<Fallback>, limited: bool) {
    forall x <- shapes :: IsLoudShape(x, note, limited)
  }

  /** Library names are only ever those the tables know. */
  predicate NamesKnown(s: Written) {
    match s
    case Qualifies(_, WellKnown(name)) => name in WELL_KNOWN_NAMES
    case Qualifies(_, KindBacked(b)) => b !in UNTYPED_BUILTINS
    case Boxed(_, elem) => elem.Some? ==> NamesKnown(elem.value)
    case _ => true
  }

  predicate WorldKnown(w: World) {
    && (forall k <- w.types, d <- w.types[k].decls :: NamesKnown(d.rhs))
    && (forall k <- w.literals, f <- w.literals[k].fields :: NamesKnown(f.written))
  }

  /** A merge holds no leaf but one of its parts' or a scalar kind. */
  lemma {:induction false} MergeLeaf(x: Shape, y: Shape)
    requires Merge(x, y).Some?
    ensures var l := LeafOf(Merge(x, y).value);
            l.None? || l == LeafOf(x) || (l.Some? && l.value.KindOnly?)
    decreases x
  {
    if x.Container? && y.Container? && x.elem.Some? && y.elem.Some? {
      MergeLeaf(x.elem.value, y.elem.value);
    }
  }

  lemma {:induction false} MergeAllLeaf(s: seq<Shape>)
    requires s != [] && MergeAll(s).Some?
    ensures var l := LeafOf(MergeAll(s).value);
            l.None? || (l.Some? && l.value.KindOnly?) || exists x <- s :: LeafOf(x) == l
    decreases |s|
  {
    if |s| > 1 {
      var rest := s[..|s| - 1];
      MergeAllLeaf(rest);
      MergeLeaf(MergeAll(rest).value, s[|s| - 1]);
      assert forall x <- rest :: x in s;
    } else {
      assert s[0] in s;
    }
  }

  // ----- no silent fallback

  lemma {:induction false} ResolveIsLoud(w: World, s: Written, c: Context, stack: seq<TypeKey>, st: State)
    requires WorldKnown(w) && NamesKnown(s)
    ensures IsLoud(Resolve(w, s, c, stack, st))
    decreases Levels(c.depth), Room(stack), 1, s
  {
    match s
    case Boxed(box, elem) =>
      if elem.Some? {
        ResolveIsLoud(w, elem.value, c.(byteElem := box == Slice), stack, st);
      }
    case Name(key) => LocalIsLoud(w, key, c, stack, st, Identity);
    case Qualifies(_, q) =>
      if q.NamedType? {
        LocalIsLoud(w, q.key, c, stack, st, Identity);
      }
    case Basic(_) =>
    case Generic(_) =>
    case Anonymous(_, _) =>
    case Unmodelled =>
  }

  lemma {:induction false} LocalIsLoud(w: World, key: TypeKey, c: Context, stack: seq<TypeKey>, st: State, mode: Mode)
    requires WorldKnown(w)
    ensures IsLoud(ResolveLocal(w, key, c, stack, st, mode))
    decreases Levels(c.depth), Room(stack), 0
  {
    if key in w.types && !w.types[key].isStruct && Cut(stack, key).None? && w.types[key].decls != [] {
      if !(mode == Identity && !c.param && w.types[key].methods != NoMethods) {
        DeclsAreLoud(w, key, w.types[key].decls, c, stack + [key], st, mode);
      }
    }
  }

  lemma {:induction false} DeclsAreLoud(w: World, key: TypeKey, decls: seq<Decl>, c: Context, stack: seq<TypeKey>, st: State, mode: Mode)
    requires WorldKnown(w) && decls != [] && forall d <- decls :: NamesKnown(d.rhs)
    ensures IsLoud(ResolveDecls(w, key, decls, c, stack, st, mode))
    decreases Levels(c.depth), Room(stack), 4, |decls|
  {
    var rs := ResolveEach(w, key, decls, c, stack, st, mode);
    EachIsLoud(w, key, decls, c, stack, st, mode);
    if MergeAll(rs.shapes).Some? {
      MergedIsLoud(rs.shapes, rs.note, rs.limited);
    }
  }

  lemma MergedIsLoud(shapes: seq<Shape>, note: Option<Fallback>, limited: bool)
    requires shapes != [] && MergeAll(shapes).Some? && AllLoud(shapes, note, limited)
    ensures IsLoudShape(MergeAll(shapes).value, note, limited)
  {
    var merged := MergeAll(shapes).value;
    MergeAllLeaf(shapes);
    if exists x <- shapes :: LeafOf(x) == LeafOf(merged) {
      var x :| x in shapes && LeafOf(x) == LeafOf(merged);
      assert IsLoudShape(x, note, limited);
    }
  }

  lemma LouderStill(shapes: seq<Shape>, last: Outcome, note: Option<Fallback>, limited: bool)
    requires AllLoud(shapes, note, limited) && IsLoud(last)
    ensures AllLoud(shapes + [last.shape], First(note, last.note), limited || last.limited)
  {
    forall x | x in shapes + [last.shape] ensures IsLoudShape(x, First(note, last.note), limited || last.limited) {
      if x in shapes {
        assert IsLoudShape(x, note, limited);
      }
    }
  }

  lemma {:induction false} EachIsLoud(w: World, key: TypeKey, decls: seq<Decl>, c: Context, stack: seq<TypeKey>, st: State, mode: Mode)
    requires WorldKnown(w) && forall d <- decls :: NamesKnown(d.rhs)
    ensures var rs := ResolveEach(w, key, decls, c, stack, st, mode);
            AllLoud(rs.shapes, rs.note, rs.limited)
    decreases Levels(c.depth), Room(stack), 3, |decls|
  {
    if decls != [] {
      var d := decls[|decls| - 1];
      assert d in decls;
      EachIsLoud(w, key, decls[..|decls| - 1], c, stack, st, mode);
      var rest := ResolveEach(w, key, decls[..|decls| - 1], c, stack, st, mode);
      DeclIsLoud(w, key, d, c, stack, rest.st, mode);
      LouderStill(rest.shapes, ResolveDecl(w, key, d, c, stack, rest.st, mode), rest.note, rest.limited);
    }
  }

  lemma {:induction false} DeclIsLoud(w: World, key: TypeKey, d: Decl, c: Context, stack: seq<TypeKey>, st: State, mode: Mode)
    requires WorldKnown(w) && NamesKnown(d.rhs)
    ensures IsLoud(ResolveDecl(w, key, d, c, stack, st, mode))
    decreases Levels(c.depth), Room(stack), 2
  {
    if mode == Identity && d.alias {
      ResolveIsLoud(w, d.rhs, c, stack, st);
    } else if d.rhs.Name? {
      LocalIsLoud(w, d.rhs.key, c, stack, st, Underlying);
    } else if d.rhs.Qualifies? {
      if KindBackedUnderlying(d.rhs.q).None? && (d.rhs.q.NamedType? || d.rhs.q.StructType?) {
        LocalIsLoud(w, d.rhs.q.key, c, stack, st, Underlying);
      }
    } else {
      ResolveIsLoud(w, d.rhs, c, stack, st);
    }
  }

  /** What the fields of an expanded anonymous struct resolve to is loud, field by field. */
  lemma FieldsAreLoud(w: World, key: Literal, i: nat, depth: nat, st: State)
    requires WorldKnown(w) && key in w.literals && i < |w.literals[key].fields|
    ensures var f := w.literals[key].fields[i];
            IsLoud(Resolve(w, f.written, FieldContext(f, depth), [], st))
  {
    var f := w.literals[key].fields[i];
    assert f in w.literals[key].fields;
    ResolveIsLoud(w, f.written, FieldContext(f, depth), [], st);
  }
}
