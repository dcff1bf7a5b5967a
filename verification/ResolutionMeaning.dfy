/**
 Which shape a type resolves to: a relation between types as written and what
 they mean, which knows no stack, no state and no order of resolution.
 */
module ResolutionMeaning {
  import opened Wrappers
  import opened BuildTags
  import opened LiteralCycles
  import opened Resolution
  import opened ResolutionCycles

  /** The shape of a type, and the structs it refers to by name. */
  datatype Meaning = Meaning(shape: Shape, refs: Refs)

  function Plain(s: Shape): Meaning {
    Meaning(s, map[])
  }

  /** A type that encoding/json leaves to its own methods: text where they go both ways. */
  function ByMethods(m: Marshalers, key: TypeKey): Shape {
    Leaf(if m == TextBothWays then Text else Marshaler, key)
  }

  /** What a defined type over a library type keeps of it: its kind, and none of its methods. */
  function KindOf(q: Qualified): Option<Shape> {
    match q
    case KindBacked(b) => Some(Builtin(b))
    case WellKnown("json.Number") => Some(Builtin("string"))
    case WellKnown("json.RawMessage") => Some(Container(Slice, Some(Builtin("byte"))))
    case WellKnown("net.IP") => Some(Container(Slice, Some(Builtin("byte"))))
    case _ => None
  }

  /** Two declarations reach different structs by one name. */
  predicate Conflict(ms: seq<Meaning>) {
    exists i, j | 0 <= i < j < |ms| :: Clashes(ms[i].refs, ms[j].refs)
  }

  function Shapes(ms: seq<Meaning>): (r: seq<Shape>)
    ensures |r| == |ms|
  {
    seq(|ms|, i requires 0 <= i < |ms| => ms[i].shape)
  }

  /** The kind of the first scalar among shapes. */
  predicate IsFirstKind(shapes: seq<Shape>, kind: string) {
    exists i | 0 <= i < |shapes| :: LeafKind(shapes[i]) == kind && kind != "" && forall j | 0 <= j < i :: LeafKind(shapes[j]) == ""
  }

  /** Every struct some declaration refers to, with the directory the first of them gives it. */
  ghost predicate FirstRefs(ms: seq<Meaning>, refs: Refs) {
    && (forall n :: n in refs <==> exists x <- ms :: n in x.refs)
    && (forall n <- refs :: exists i | 0 <= i < |ms| :: n in ms[i].refs && ms[i].refs[n] == refs[n] && forall j | 0 <= j < i :: n !in ms[j].refs)
  }

  /** What several declarations of key mean together: what all say, else a scalar kind, else nothing but a name. */
  ghost predicate Agreed(key: TypeKey, ms: seq<Meaning>, m: Meaning) {
    && ms != [] && FirstRefs(ms, m.refs)
    && if MergeAll(Shapes(ms)).Some? && !Conflict(ms) then m.shape == MergeAll(Shapes(ms)).value
       else if exists kind :: IsFirstKind(Shapes(ms), kind) then m.shape.KindOnly? && IsFirstKind(Shapes(ms), m.shape.kind)
       else m.shape == Leaf(Named, key)
  }

  /**
   s means m, opening at most n names one inside the other.  Boxes are kept one
   for one.  Where cuts is set, a name or an anonymous struct may stand for
   itself instead, as one that closes a cycle or lies too deep does.
   */
  ghost predicate Means(w: World, s: Written, c: Context, m: Meaning, n: nat, cuts: bool)
    decreases Levels(c.depth), n, 1, s
  {
    match s
    case Boxed(box, elem) =>
      if elem.None? then m == Plain(Container(box, None))
      else
        && m.shape.Container? && m.shape.box == box && m.shape.elem.Some?
        && Means(w, elem.value, c.(byteElem := box == Slice), Meaning(m.shape.elem.value, m.refs), n, cuts)
    case Name(key) => NameMeans(w, key, Identity, c, m, n, cuts)
    case Qualifies(name, q) =>
      (match q
       case StructType(key, dir) =>
         m == if !c.param && key in w.types && w.types[key].structIdentity != NoMethods then Plain(ByMethods(w.types[key].structIdentity, key))
              else Meaning(Leaf(Reference, name), map[name := dir])
       case NamedType(key) => NameMeans(w, key, Identity, c, m, n, cuts)
       case KindBacked(b) => m == Plain(Builtin(b))
       case WellKnown(known) => m == Plain(Leaf(Named, known))
       case Unknown => m == Plain(Leaf(Named, name)))
    case Basic(name) => m == Plain(Builtin(name))
    case Generic(written) => m == Plain(Leaf(Instantiation, written))
    case Anonymous(key, written) =>
      if !c.inline then m == Plain(Literal(false, written))
      else if InfoOf(w, key).methods != NoMethods then m == Plain(ByMethods(InfoOf(w, key).methods, LITERAL_CUT.name))
      else (c.depth < MAX_DEPTH && m.shape == Literal(true, written) && FieldsMean(w, InfoOf(w, key).fields, c.depth + 1, m.refs)) || (cuts && m == Plain(LITERAL_CUT))
    case Unmodelled => m == Plain(Leaf(Sort.Unknown, ""))
  }

  /** What the fields of an anonymous struct refer to, each by itself, the first of a name kept. */
  ghost predicate FieldsMean(w: World, fields: seq<LiteralField>, depth: nat, refs: Refs)
    decreases Levels(depth), MAX_OPEN + 1
  {
    exists ms: seq<Meaning> | |ms| == |fields| ::
      FirstRefs(ms, refs) && forall i | 0 <= i < |ms| :: FieldMeans(w, fields[i], depth, ms[i])
  }

  ghost predicate FieldMeans(w: World, f: LiteralField, depth: nat, m: Meaning)
    decreases Levels(depth), MAX_OPEN, 5
  {
    if f.excluded then m.refs == map[] else Means(w, f.written, FieldContext(f, depth), m, MAX_OPEN, true)
  }

  /** A name of the module; under Underlying its own methods do not count. */
  ghost predicate NameMeans(w: World, key: TypeKey, mode: Mode, c: Context, m: Meaning, n: nat, cuts: bool)
    decreases Levels(c.depth), n, 0
  {
    if key in w.types && w.types[key].isStruct then
      var own := if mode == Identity then w.types[key].structIdentity else w.types[key].structUnderlying;
      m == if !c.param && own != NoMethods then Plain(ByMethods(own, key)) else Meaning(Leaf(Reference, key), map[key := w.types[key].dir])
    else if cuts && m == Plain(Leaf(Recursive, key)) then true
    else if key !in w.types || w.types[key].decls == [] then m == Plain(Leaf(Named, key))
    else if n == 0 then false
    else if mode == Identity && !c.param && w.types[key].methods != NoMethods then
      if w.types[key].methods == TextBothWays then m == Plain(Leaf(Text, key)) else MethodsMean(w, key, c, m, n - 1, cuts)
    else DeclsMean(w, key, w.types[key].decls, mode, c, m, n - 1, cuts)
  }

  /** A type left to its own methods; the bytes of a slice are bytes still, where no method writes them. */
  ghost predicate MethodsMean(w: World, key: TypeKey, c: Context, m: Meaning, n: nat, cuts: bool)
    requires key in w.types && w.types[key].methods.Methods?
    decreases Levels(c.depth), n, 4
  {
    exists under :: DeclsMean(w, key, w.types[key].decls, Underlying, c.(inline := false), under, n, cuts)
      && m == Plain(if c.byteElem && !w.types[key].methods.encode && IsByte(under.shape) then under.shape else Leaf(Marshaler, key))
  }

  /** All declarations of key, each with a meaning of its own. */
  ghost predicate DeclsMean(w: World, key: TypeKey, decls: seq<Decl>, mode: Mode, c: Context, m: Meaning, n: nat, cuts: bool)
    decreases Levels(c.depth), n, 3
  {
    exists ms: seq<Meaning> | |ms| == |decls| :: Agreed(key, ms, m) && forall i | 0 <= i < |ms| :: DeclMeans(w, key, decls[i], mode, c, ms[i], n, cuts)
  }

  /** An alias is what it names; a defined type is what that is underneath. */
  ghost predicate DeclMeans(w: World, key: TypeKey, d: Decl, mode: Mode, c: Context, m: Meaning, n: nat, cuts: bool)
    decreases Levels(c.depth), n, 2
  {
    if d.alias && mode == Identity then Means(w, d.rhs, c, m, n, cuts)
    else
      match d.rhs
      case Name(target) => NameMeans(w, target, Underlying, c, m, n, cuts)
      case Qualifies(_, q) =>
        if KindOf(q).Some? then m == Plain(KindOf(q).value)
        else if q.NamedType? || q.StructType? then NameMeans(w, q.key, Underlying, c, m, n, cuts)
        else m == Plain(Leaf(Named, key))
      case _ => Means(w, d.rhs, c, m, n, cuts)
  }

  // ----- types whose names need not be cut

  /** No name below s is met again below itself, nor more than n one inside the other. */
  ghost predicate IsFlat(w: World, s: Written, n: nat)
    decreases n, 1, s
  {
    match s
    case Boxed(_, elem) => elem.Some? ==> IsFlat(w, elem.value, n)
    case Name(key) => IsFlatName(w, key, n)
    case Qualifies(_, q) => q.NamedType? || q.StructType? ==> IsFlatName(w, q.key, n)
    case _ => true
  }

  ghost predicate IsFlatName(w: World, key: TypeKey, n: nat)
    decreases n, 0
  {
    (key in w.types && w.types[key].isStruct) || (n > 0 && (key in w.types ==> forall d <- w.types[key].decls :: IsFlat(w, d.rhs, n - 1)))
  }

  lemma {:induction false} FlatMore(w: World, s: Written, n: nat, more: nat)
    requires IsFlat(w, s, n) && n <= more
    ensures IsFlat(w, s, more)
    decreases n, 1, s
  {
    match s
    case Boxed(_, elem) =>
      if elem.Some? {
        FlatMore(w, elem.value, n, more);
      }
    case Name(key) => FlatNameMore(w, key, n, more);
    case Qualifies(_, q) =>
      if q.NamedType? || q.StructType? {
        FlatNameMore(w, q.key, n, more);
      }
    case _ =>
  }

  lemma {:induction false} FlatNameMore(w: World, key: TypeKey, n: nat, more: nat)
    requires IsFlatName(w, key, n) && n <= more
    ensures IsFlatName(w, key, more)
    decreases n, 0
  {
    if n > 0 && key in w.types {
      forall d | d in w.types[key].decls && (forall x <- w.types[key].decls :: IsFlat(w, x.rhs, n - 1)) ensures IsFlat(w, d.rhs, more - 1) {
        FlatMore(w, d.rhs, n - 1, more - 1);
      }
    }
  }

  /** The names open are none of those that n more can reach the end of, and there is room for these. */
  ghost predicate IsClear(w: World, stack: seq<TypeKey>, n: nat) {
    |stack| + n <= MAX_OPEN && forall x <- stack :: !IsFlatName(w, x, n)
  }

  /** A flat name that has to be opened is not open, and opening it leaves all below it clear. */
  lemma {:induction false} OpensClear(w: World, stack: seq<TypeKey>, key: TypeKey, n: nat) returns (less: nat)
    requires IsClear(w, stack, n) && IsFlatName(w, key, n)
    requires key in w.types ==> !w.types[key].isStruct
    ensures Cut(stack, key).None? && IsClear(w, stack + [key], less) && (key in w.types ==> forall d <- w.types[key].decls :: IsFlat(w, d.rhs, less))
    decreases n
  {
    if IsFlatName(w, key, n - 1) {
      forall x | x in stack ensures !IsFlatName(w, x, n - 1) {
        if IsFlatName(w, x, n - 1) {
          FlatNameMore(w, x, n - 1, n);
        }
      }
      less := OpensClear(w, stack, key, n - 1);
    } else {
      less := n - 1;
      forall x | x in stack + [key] ensures !IsFlatName(w, x, less) {
        if x in stack && IsFlatName(w, x, less) {
          FlatNameMore(w, x, less, n);
        }
      }
    }
  }

  predicate AllExpanded(trees: Trees) {
    trees.Grown? ==> trees.head.Expanded? && AllExpanded(trees.tail)
  }

  lemma {:induction false} BothExpanded(a: Trees, b: Trees)
    ensures AllExpanded(Append(a, b)) <==> AllExpanded(a) && AllExpanded(b)
    decreases a
  {
    if a.Grown? {
      BothExpanded(a.tail, b);
    }
  }

  // ----- declarations together

  lemma FirstRefsMore(ms: seq<Meaning>, refs: Refs, x: Meaning)
    requires FirstRefs(ms, refs)
    ensures FirstRefs(ms + [x], x.refs + refs)
    ensures Conflict(ms + [x]) <==> Conflict(ms) || Clashes(refs, x.refs)
  {
    hide Conflict, Clashes;
    ConflictMore(ms, refs, x);
    var more, all := ms + [x], x.refs + refs;
    forall n ensures n in all <==> exists y <- more :: n in y.refs {
      assert more[|ms|] == x;
      if n in refs {
        var y :| y in ms && n in y.refs;
        assert y in more;
      }
    }
    forall n | n in all
      ensures exists i | 0 <= i < |more| :: n in more[i].refs && more[i].refs[n] == all[n] && forall j | 0 <= j < i :: n !in more[j].refs
    {
      StillFirst(ms, refs, x, n);
    }
  }

  lemma StillFirst(ms: seq<Meaning>, refs: Refs, x: Meaning, n: string)
    requires FirstRefs(ms, refs) && n in x.refs + refs
    ensures var more, all := ms + [x], x.refs + refs;
            exists i | 0 <= i < |more| :: n in more[i].refs && more[i].refs[n] == all[n] && forall j | 0 <= j < i :: n !in more[j].refs
  {
    var more := ms + [x];
    if n in refs {
      var i :| 0 <= i < |ms| && n in ms[i].refs && ms[i].refs[n] == refs[n] && forall j | 0 <= j < i :: n !in ms[j].refs;
      assert more[i] == ms[i];
    } else {
      assert more[|ms|] == x;
      forall j | 0 <= j < |ms| ensures n !in more[j].refs {
        assert ms[j] in ms;
      }
    }
  }

  lemma ConflictMore(ms: seq<Meaning>, refs: Refs, x: Meaning)
    requires FirstRefs(ms, refs)
    ensures Conflict(ms + [x]) <==> Conflict(ms) || Clashes(refs, x.refs)
  {
    hide FirstRefs;
    var more := ms + [x];
    assert more[|ms|] == x && forall i | 0 <= i < |ms| :: more[i] == ms[i];
    if Conflict(more) && !Conflict(ms) {
      var i, j :| 0 <= i < j < |more| && Clashes(more[i].refs, more[j].refs);
      OneClashes(ms, refs, x, i);
    }
    if Conflict(ms) {
      var i, j :| 0 <= i < j < |ms| && Clashes(ms[i].refs, ms[j].refs);
      assert Clashes(more[i].refs, more[j].refs);
    }
    if Clashes(refs, x.refs) {
      var i := FirstClashes(ms, refs, x);
      assert Clashes(more[i].refs, more[|ms|].refs);
    }
  }

  lemma OneClashes(ms: seq<Meaning>, refs: Refs, x: Meaning, i: nat)
    requires FirstRefs(ms, refs) && i < |ms| && Clashes(ms[i].refs, x.refs) && !Conflict(ms)
    ensures Clashes(refs, x.refs)
  {
    var n :| n in x.refs && n in ms[i].refs && ms[i].refs[n] != x.refs[n];
    assert ms[i] in ms;
    var first :| 0 <= first < |ms| && n in ms[first].refs && ms[first].refs[n] == refs[n] && forall l | 0 <= l < first :: n !in ms[l].refs;
    assert first < i ==> !Clashes(ms[first].refs, ms[i].refs);
  }

  lemma FirstClashes(ms: seq<Meaning>, refs: Refs, x: Meaning) returns (i: nat)
    requires FirstRefs(ms, refs) && Clashes(refs, x.refs)
    ensures i < |ms| && Clashes(ms[i].refs, x.refs)
  {
    var n :| n in x.refs && n in refs && refs[n] != x.refs[n];
    i :| 0 <= i < |ms| && n in ms[i].refs && ms[i].refs[n] == refs[n] && forall j | 0 <= j < i :: n !in ms[j].refs;
  }

  lemma {:induction false} FirstKind(shapes: seq<Shape>)
    ensures FirstScalarKind(shapes) != "" ==> IsFirstKind(shapes, FirstScalarKind(shapes))
    ensures forall kind :: IsFirstKind(shapes, kind) ==> FirstScalarKind(shapes) == kind
    decreases |shapes|
  {
    if shapes != [] {
      var rest := shapes[1..];
      FirstKind(rest);
      if LeafKind(shapes[0]) == "" && FirstScalarKind(rest) != "" {
        var i :| 0 <= i < |rest| && LeafKind(rest[i]) == FirstScalarKind(rest) && forall j | 0 <= j < i :: LeafKind(rest[j]) == "";
        assert shapes[i + 1] == rest[i];
        assert forall j | 0 <= j < i + 1 :: j > 0 ==> shapes[j] == rest[j - 1];
      }
      forall kind | IsFirstKind(shapes, kind) ensures FirstScalarKind(shapes) == kind {
        var i :| 0 <= i < |shapes| && LeafKind(shapes[i]) == kind && kind != "" && forall j | 0 <= j < i :: LeafKind(shapes[j]) == "";
        if i > 0 {
          assert rest[i - 1] == shapes[i];
          assert forall j | 0 <= j < i - 1 :: rest[j] == shapes[j + 1];
          assert IsFirstKind(rest, kind);
        }
      }
    }
  }

  lemma MergedAgrees(key: TypeKey, rs: Outcomes, ms: seq<Meaning>)
    requires rs.shapes != [] && Shapes(ms) == rs.shapes && FirstRefs(ms, rs.refs) && (rs.clashed <==> Conflict(ms))
    ensures Agreed(key, ms, Meaning(Merged(key, rs).shape, Merged(key, rs).refs))
  {
    FirstKind(rs.shapes);
  }

  // ----- what is resolved is what is meant

  /** No name below is cut, as n says, unless cuts are allowed. */
  ghost predicate MayCut(w: World, stack: seq<TypeKey>, cuts: bool, flat: bool, n: nat) {
    cuts || (flat && IsClear(w, stack, n))
  }

  /**
   Every type resolves to what it means.  A type whose names are flat, none of
   them open, has none of them cut; literals are cut where the expansion says.
   */
  lemma {:induction false} ResolveMeans(w: World, s: Written, c: Context, stack: seq<TypeKey>, st: State, cuts: bool, n: nat)
    requires MayCut(w, stack, cuts, IsFlat(w, s, n), n)
    ensures var o := Resolve(w, s, c, stack, st);
            cuts || AllExpanded(o.trees) ==> Means(w, s, c, Meaning(o.shape, o.refs), Fuel(stack), cuts)
    decreases Levels(c.depth), Room(stack), 1, s
  {
    match s
    case Boxed(box, elem) =>
      if elem.Some? {
        ResolveMeans(w, elem.value, c.(byteElem := box == Slice), stack, st, cuts, n);
      }
    case Name(key) => NameResolves(w, key, c, stack, st, Identity, cuts, n);
    case Qualifies(_, q) =>
      if q.NamedType? {
        NameResolves(w, q.key, c, stack, st, Identity, cuts, n);
      }
    case Anonymous(key, written) => LiteralResolves(w, key, written, c, stack, st, cuts);
    case _ =>
  }

  lemma {:induction false} LiteralResolves(w: World, key: Literal, written: string, c: Context, stack: seq<TypeKey>, st: State, cuts: bool)
    ensures var o := ResolveLiteral(w, key, written, c, stack, st);
            cuts || AllExpanded(o.trees) ==> Means(w, Anonymous(key, written), c, Meaning(o.shape, o.refs), Fuel(stack), cuts)
    decreases Levels(c.depth), Room(stack), 0
  {
    hide ResolveLiteral, ResolveFields, Closes, FieldsMean;
    LiteralUnfolds(w, key, written, c, stack, st);
    if c.depth + 1 <= MAX_DEPTH {
      FieldsResolve(w, InfoOf(w, key).fields, c.depth + 1, Opened(st, key));
    }
  }

  lemma FieldsResolve(w: World, fields: seq<LiteralField>, depth: nat, st: State)
    requires depth > 0
    ensures FieldsMean(w, fields, depth, ResolveFields(w, fields, depth, st).refs)
    decreases Levels(depth), MAX_OPEN + 2
  {
    var ms := EachFieldResolves(w, fields, depth, st);
  }

  lemma {:induction false} EachFieldResolves(w: World, fields: seq<LiteralField>, depth: nat, st: State) returns (ms: seq<Meaning>)
    ensures |ms| == |fields| && FirstRefs(ms, ResolveFields(w, fields, depth, st).refs)
    ensures forall i | 0 <= i < |ms| :: FieldMeans(w, fields[i], depth, ms[i])
    decreases Levels(depth), MAX_OPEN + 1, 0, |fields|
  {
    hide FirstRefs, Means, Conflict, Clashes;
    if fields == [] {
      ms := [];
      NoRefs();
    } else {
      var init, f := fields[..|fields| - 1], fields[|fields| - 1];
      var some := EachFieldResolves(w, init, depth, st);
      var rest := ResolveFields(w, init, depth, st);
      var x := Plain(Literal(false, ""));
      if !f.excluded {
        ResolveMeans(w, f.written, FieldContext(f, depth), [], rest.st, true, 0);
        var o := Resolve(w, f.written, FieldContext(f, depth), [], rest.st);
        x := Meaning(o.shape, o.refs);
      }
      FirstRefsMore(some, rest.refs, x);
      assert map[] + rest.refs == rest.refs;
      ms := some + [x];
    }
  }

  lemma {:induction false} NameResolves(w: World, key: TypeKey, c: Context, stack: seq<TypeKey>, st: State, mode: Mode, cuts: bool, n: nat)
    requires MayCut(w, stack, cuts, IsFlatName(w, key, n), n)
    ensures var o := ResolveLocal(w, key, c, stack, st, mode);
            cuts || AllExpanded(o.trees) ==> NameMeans(w, key, mode, c, Meaning(o.shape, o.refs), Fuel(stack), cuts)
    decreases Levels(c.depth), Room(stack), 0, 1
  {
    hide Agreed, MergeAll, IsFlat, Merged, ResolveEach, DeclsMean, IsClear, IsFlatName;
    if !(key in w.types && w.types[key].isStruct) {
      var less := n;
      if !cuts {
        less := OpensClear(w, stack, key, n);
      }
      if OpensName(w, key, stack) {
        OpenedResolves(w, key, c, stack, st, mode, cuts, less);
      }
    }
  }

  lemma {:induction false} OpenedResolves(w: World, key: TypeKey, c: Context, stack: seq<TypeKey>, st: State, mode: Mode, cuts: bool, n: nat)
    requires OpensName(w, key, stack) && MayCut(w, stack + [key], cuts, forall d <- w.types[key].decls :: IsFlat(w, d.rhs, n), n)
    ensures var o := ResolveLocal(w, key, c, stack, st, mode);
            cuts || AllExpanded(o.trees) ==> NameMeans(w, key, mode, c, Meaning(o.shape, o.refs), Fuel(stack), cuts)
    decreases Levels(c.depth), Room(stack), 0, 0
  {
    hide Agreed, MergeAll, IsFlat, Merged, ResolveLocal, ResolveEach, DeclsMean, IsClear, IsFlatName;
    var decls, more := w.types[key].decls, stack + [key];
    LocalUnfolds(w, key, c, stack, st, mode);
    assert Fuel(more) == Fuel(stack) - 1;
    if TakesDecls(w, key, c, mode) {
      DeclsResolve(w, key, decls, c, more, st, mode, cuts, n);
    } else if RunsQuietly(w, key, c, mode) {
      QuietDecls(w, key, decls, c.(inline := false), more, st, Underlying);
      DeclsResolve(w, key, decls, c.(inline := false), more, st, Underlying, cuts, n);
    } else {
      TextResolves(w, key, c, stack, st, mode);
    }
  }

  lemma QuietDecls(w: World, key: TypeKey, decls: seq<Decl>, c: Context, stack: seq<TypeKey>, st: State, mode: Mode)
    requires decls != [] && !c.inline
    ensures ResolveDecls(w, key, decls, c, stack, st, mode).trees == NoTrees
  {
    QuietEach(w, key, decls, c, stack, st, mode);
  }

  lemma TextResolves(w: World, key: TypeKey, c: Context, stack: seq<TypeKey>, st: State, mode: Mode)
    requires OpensName(w, key, stack) && mode == Identity && !c.param && w.types[key].methods == TextBothWays
    ensures ResolveLocal(w, key, c, stack, st, mode) == Found(Leaf(Text, key), st)
  {
  }

  lemma {:induction false} DeclsResolve(w: World, key: TypeKey, decls: seq<Decl>, c: Context, stack: seq<TypeKey>, st: State, mode: Mode, cuts: bool, n: nat)
    requires decls != [] && MayCut(w, stack, cuts, forall d <- decls :: IsFlat(w, d.rhs, n), n)
    ensures var o := ResolveDecls(w, key, decls, c, stack, st, mode);
            cuts || AllExpanded(o.trees) ==> DeclsMean(w, key, decls, mode, c, Meaning(o.shape, o.refs), Fuel(stack), cuts)
    decreases Levels(c.depth), Room(stack), 4, |decls|
  {
    var rs := ResolveEach(w, key, decls, c, stack, st, mode);
    if cuts || AllExpanded(rs.trees) {
      var ms := EachResolves(w, key, decls, c, stack, st, mode, cuts, n);
      MergedAgrees(key, rs, ms);
    }
  }

  lemma NoRefs()
    ensures FirstRefs([], map[]) && !Conflict([])
  {
  }

  lemma {:induction false} EachResolves(w: World, key: TypeKey, decls: seq<Decl>, c: Context, stack: seq<TypeKey>, st: State, mode: Mode, cuts: bool, n: nat)
    returns (ms: seq<Meaning>)
    requires MayCut(w, stack, cuts, forall d <- decls :: IsFlat(w, d.rhs, n), n)
    requires cuts || AllExpanded(ResolveEach(w, key, decls, c, stack, st, mode).trees)
    ensures var rs := ResolveEach(w, key, decls, c, stack, st, mode);
            Shapes(ms) == rs.shapes && |ms| == |decls| && FirstRefs(ms, rs.refs) && (rs.clashed <==> Conflict(ms))
    ensures forall i | 0 <= i < |ms| :: DeclMeans(w, key, decls[i], mode, c, ms[i], Fuel(stack), cuts)
    decreases Levels(c.depth), Room(stack), 3, |decls|
  {
    hide DeclMeans, FirstRefs, Conflict, Clashes, ResolveDecl, IsFlat, IsClear;
    if decls == [] {
      ms := [];
      NoRefs();
    } else {
      var init, d := decls[..|decls| - 1], decls[|decls| - 1];
      var rest := ResolveEach(w, key, init, c, stack, st, mode);
      var last := ResolveDecl(w, key, d, c, stack, rest.st, mode);
      BothExpanded(rest.trees, last.trees);
      assert forall x <- init :: x in decls;
      var some := EachResolves(w, key, init, c, stack, st, mode, cuts, n);
      DeclResolves(w, key, d, c, stack, rest.st, mode, cuts, n);
      var x := Meaning(last.shape, last.refs);
      FirstRefsMore(some, rest.refs, x);
      ms := some + [x];
      assert Shapes(ms) == Shapes(some) + [x.shape];
    }
  }

  lemma {:induction false} DeclResolves(w: World, key: TypeKey, d: Decl, c: Context, stack: seq<TypeKey>, st: State, mode: Mode, cuts: bool, n: nat)
    requires MayCut(w, stack, cuts, IsFlat(w, d.rhs, n), n)
    ensures var o := ResolveDecl(w, key, d, c, stack, st, mode);
            cuts || AllExpanded(o.trees) ==> DeclMeans(w, key, d, mode, c, Meaning(o.shape, o.refs), Fuel(stack), cuts)
    decreases Levels(c.depth), Room(stack), 2
  {
    if mode == Identity && d.alias {
      ResolveMeans(w, d.rhs, c, stack, st, cuts, n);
    } else if d.rhs.Name? {
      NameResolves(w, d.rhs.key, c, stack, st, Underlying, cuts, n);
    } else if d.rhs.Qualifies? {
      if d.rhs.q.NamedType? || d.rhs.q.StructType? {
        NameResolves(w, d.rhs.q.key, c, stack, st, Underlying, cuts, n);
      }
    } else {
      ResolveMeans(w, d.rhs, c, stack, st, cuts, n);
    }
  }

  /** A field or payload whose names are flat and whose anonymous structs are all expanded is exactly what it means. */
  lemma FlatResolves(w: World, s: Written, c: Context, st: State, n: nat)
    requires IsFlat(w, s, n) && n <= MAX_OPEN
    ensures var o := Resolve(w, s, c, [], st);
            AllExpanded(o.trees) ==> Means(w, s, c, Meaning(o.shape, o.refs), MAX_OPEN, false)
  {
    ResolveMeans(w, s, c, [], st, false, n);
  }

  // ----- and nothing else is meant

  /** A single declaration says alone what the name means. */
  lemma AloneAgrees(key: TypeKey, x: Meaning, m: Meaning)
    ensures Agreed(key, [x], m) <==> m == x
  {
    assert Shapes([x]) == [x.shape] && MergeAll([x.shape]) == Some(x.shape) && !Conflict([x]);
    NoRefs();
    FirstRefsMore([], map[], x);
    assert [] + [x] == [x] && x.refs + map[] == x.refs;
    if FirstRefs([x], m.refs) {
      FirstRefsOnce([x], m.refs, x.refs);
    }
  }

  lemma AgreedOnce(key: TypeKey, ms: seq<Meaning>, a: Meaning, b: Meaning)
    requires Agreed(key, ms, a) && Agreed(key, ms, b)
    ensures a == b
  {
    hide FirstRefs, MergeAll, Conflict, IsFirstKind;
    FirstKind(Shapes(ms));
    FirstRefsOnce(ms, a.refs, b.refs);
  }

  lemma FirstRefsOnce(ms: seq<Meaning>, a: Refs, b: Refs)
    requires FirstRefs(ms, a) && FirstRefs(ms, b)
    ensures a == b
  {
    assert a.Keys == b.Keys;
    forall n | n in a ensures a[n] == b[n] {
      var i :| 0 <= i < |ms| && n in ms[i].refs && ms[i].refs[n] == a[n] && forall l | 0 <= l < i :: n !in ms[l].refs;
      var j :| 0 <= j < |ms| && n in ms[j].refs && ms[j].refs[n] == b[n] && forall l | 0 <= l < j :: n !in ms[l].refs;
      assert i == j;
    }
  }

  /** Where nothing is cut and no anonymous struct expanded, a type means one thing. */
  lemma {:induction false} MeansOnce(w: World, s: Written, c: Context, a: Meaning, b: Meaning, n: nat)
    requires !c.inline && Means(w, s, c, a, n, false) && Means(w, s, c, b, n, false)
    ensures a == b
    decreases n, 1, s
  {
    match s
    case Boxed(box, elem) =>
      if elem.Some? {
        MeansOnce(w, elem.value, c.(byteElem := box == Slice), Meaning(a.shape.elem.value, a.refs), Meaning(b.shape.elem.value, b.refs), n);
      }
    case Name(key) => NameMeansOnce(w, key, Identity, c, a, b, n);
    case Qualifies(_, q) =>
      if q.NamedType? {
        NameMeansOnce(w, q.key, Identity, c, a, b, n);
      }
    case _ =>
  }

  lemma {:induction false} NameMeansOnce(w: World, key: TypeKey, mode: Mode, c: Context, a: Meaning, b: Meaning, n: nat)
    requires !c.inline && NameMeans(w, key, mode, c, a, n, false) && NameMeans(w, key, mode, c, b, n, false)
    ensures a == b
    decreases n, 0
  {
    hide Means, Agreed, DeclMeans, MergeAll;
    if key in w.types && !w.types[key].isStruct && w.types[key].decls != [] {
      var decls, methods := w.types[key].decls, w.types[key].methods;
      if mode == Identity && !c.param && methods.Methods? {
        MethodsMeanOnce(w, key, c, a, b, n - 1);
      } else if !(mode == Identity && !c.param && methods != NoMethods) {
        DeclsMeanOnce(w, key, decls, mode, c, a, b, n - 1);
      }
    }
  }

  lemma {:induction false} MethodsMeanOnce(w: World, key: TypeKey, c: Context, a: Meaning, b: Meaning, n: nat)
    requires !c.inline && key in w.types && w.types[key].methods.Methods? && MethodsMean(w, key, c, a, n, false) && MethodsMean(w, key, c, b, n, false)
    ensures a == b
    decreases n, 4
  {
    hide Means, Agreed, DeclMeans, MergeAll;
    var decls, methods := w.types[key].decls, w.types[key].methods;
    var x :| DeclsMean(w, key, decls, Underlying, c.(inline := false), x, n, false)
             && a == Plain(if c.byteElem && !methods.encode && IsByte(x.shape) then x.shape else Leaf(Marshaler, key));
    var y :| DeclsMean(w, key, decls, Underlying, c.(inline := false), y, n, false)
             && b == Plain(if c.byteElem && !methods.encode && IsByte(y.shape) then y.shape else Leaf(Marshaler, key));
    DeclsMeanOnce(w, key, decls, Underlying, c.(inline := false), x, y, n);
  }

  lemma {:induction false} DeclsMeanOnce(w: World, key: TypeKey, decls: seq<Decl>, mode: Mode, c: Context, a: Meaning, b: Meaning, n: nat)
    requires !c.inline && DeclsMean(w, key, decls, mode, c, a, n, false) && DeclsMean(w, key, decls, mode, c, b, n, false)
    ensures a == b
    decreases n, 3
  {
    var xs: seq<Meaning> :| |xs| == |decls| && Agreed(key, xs, a) && forall i | 0 <= i < |xs| :: DeclMeans(w, key, decls[i], mode, c, xs[i], n, false);
    var ys: seq<Meaning> :| |ys| == |decls| && Agreed(key, ys, b) && forall i | 0 <= i < |ys| :: DeclMeans(w, key, decls[i], mode, c, ys[i], n, false);
    forall i | 0 <= i < |xs| ensures xs[i] == ys[i] {
      DeclMeansOnce(w, key, decls[i], mode, c, xs[i], ys[i], n);
    }
    assert xs == ys;
    AgreedOnce(key, xs, a, b);
  }

  lemma {:induction false} DeclMeansOnce(w: World, key: TypeKey, d: Decl, mode: Mode, c: Context, a: Meaning, b: Meaning, n: nat)
    requires !c.inline && DeclMeans(w, key, d, mode, c, a, n, false) && DeclMeans(w, key, d, mode, c, b, n, false)
    ensures a == b
    decreases n, 2
  {
    if d.alias && mode == Identity {
      MeansOnce(w, d.rhs, c, a, b, n);
    } else if d.rhs.Name? {
      NameMeansOnce(w, d.rhs.key, Underlying, c, a, b, n);
    } else if d.rhs.Qualifies? {
      if KindOf(d.rhs.q).None? && (d.rhs.q.NamedType? || d.rhs.q.StructType?) {
        NameMeansOnce(w, d.rhs.q.key, Underlying, c, a, b, n);
      }
    } else {
      MeansOnce(w, d.rhs, c, a, b, n);
    }
  }

  // ----- nothing is noted without need

  /** A leaf that is documented as untyped, or may be. */
  predicate IsNotedLeaf(leaf: Shape) {
    (leaf.Builtin? && leaf.name in UNTYPED_BUILTINS) || (leaf.Leaf? && leaf.sort !in {Reference, Text, Sort.Unknown})
  }

  predicate IsDue(o: Outcome) {
    o.note.Some? ==> LeafOf(o.shape).Some? && IsNotedLeaf(LeafOf(o.shape).value)
  }

  /** No build tags: every name is declared once at most. */
  predicate IsSingle(w: World) {
    forall k <- w.types :: |w.types[k].decls| <= 1
  }

  lemma OneDecl(w: World, key: TypeKey, d: Decl, c: Context, stack: seq<TypeKey>, st: State, mode: Mode)
    ensures ResolveDecls(w, key, [d], c, stack, st, mode) ==
              var o := ResolveDecl(w, key, d, c, stack, st, mode); Outcome(o.shape, o.note, o.limited, o.refs, Append(NoTrees, o.trees), o.st)
  {
    var o := ResolveDecl(w, key, d, c, stack, st, mode);
    assert [d][..0] == [] && [] + [o.shape] == [o.shape] && o.refs + map[] == o.refs;
    var rs := ResolveEach(w, key, [d], c, stack, st, mode);
    OneDeclMore(w, key, [d], 0, c, stack, st, mode);
    NoDecls(w, key, c, stack, st, mode);
    assert [d][..1] == [d] && rs == AddDecl(Outcomes([], None, false, map[], false, NoTrees, st), o);
    assert !Clashes(map[], o.refs);
  }

  /** Where nothing is declared twice, a fallback is noted only of a type that ends up untyped. */
  lemma {:induction false} NotesAreDue(w: World, s: Written, c: Context, stack: seq<TypeKey>, st: State)
    requires IsSingle(w)
    ensures IsDue(Resolve(w, s, c, stack, st))
    decreases Levels(c.depth), Room(stack), 1, s
  {
    match s
    case Boxed(box, elem) =>
      if elem.Some? {
        NotesAreDue(w, elem.value, c.(byteElem := box == Slice), stack, st);
      }
    case Name(key) => NameIsDue(w, key, c, stack, st, Identity);
    case Qualifies(_, q) =>
      if q.NamedType? {
        NameIsDue(w, q.key, c, stack, st, Identity);
      }
    case _ =>
  }

  lemma {:induction false} NameIsDue(w: World, key: TypeKey, c: Context, stack: seq<TypeKey>, st: State, mode: Mode)
    requires IsSingle(w)
    ensures IsDue(ResolveLocal(w, key, c, stack, st, mode))
    decreases Levels(c.depth), Room(stack), 0
  {
    hide ResolveEach, Merged, IsNotedLeaf;
    NotedLeaves(key);
    if OpensName(w, key, stack) && TakesDecls(w, key, c, mode) {
      var d, more := w.types[key].decls[0], stack + [key];
      assert w.types[key].decls == [d];
      LocalUnfolds(w, key, c, stack, st, mode);
      OneDecl(w, key, d, c, more, st, mode);
      if mode == Identity && d.alias {
        NotesAreDue(w, d.rhs, c, more, st);
      } else if d.rhs.Name? {
        NameIsDue(w, d.rhs.key, c, more, st, Underlying);
      } else if d.rhs.Qualifies? {
        if KindBackedUnderlying(d.rhs.q).None? && (d.rhs.q.NamedType? || d.rhs.q.StructType?) {
          NameIsDue(w, d.rhs.q.key, c, more, st, Underlying);
        }
      } else {
        NotesAreDue(w, d.rhs, c, more, st);
      }
    }
  }

  lemma NotedLeaves(key: TypeKey)
    ensures IsNotedLeaf(Leaf(Marshaler, key)) && IsNotedLeaf(Leaf(Recursive, key)) && IsNotedLeaf(Leaf(Named, key))
  {
  }
}
