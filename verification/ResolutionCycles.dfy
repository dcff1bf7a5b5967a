/**
 What every resolution keeps of the expansion of anonymous structs, however
 named types and literals stand in one another: no literal is expanded inside
 itself, no field's expansion is larger than the limit, one found on a cycle
 with an open one stays cut until that one closes, and nothing is remembered
 once the outermost has closed.
 */
module ResolutionCycles {
  import opened Wrappers
  import opened BuildTags
  import opened LiteralCycles
  import opened Resolution

  /** How many names may still be opened. */
  function Fuel(stack: seq<TypeKey>): nat {
    if |stack| <= MAX_OPEN then MAX_OPEN - |stack| else 0
  }

  // ----- the ways a named type resolves

  predicate OpensName(w: World, key: TypeKey, stack: seq<TypeKey>) {
    key in w.types && !w.types[key].isStruct && Cut(stack, key).None? && w.types[key].decls != []
  }

  predicate RunsQuietly(w: World, key: TypeKey, c: Context, mode: Mode)
    requires key in w.types
  {
    mode == Identity && !c.param && w.types[key].methods.Methods?
  }

  predicate TakesDecls(w: World, key: TypeKey, c: Context, mode: Mode)
    requires key in w.types
  {
    !(mode == Identity && !c.param && w.types[key].methods != NoMethods)
  }

  /** What a quiet run makes of a Marshaler type. */
  function QuietOutcome(w: World, key: TypeKey, c: Context, under: Shape, st: State): Outcome
    requires key in w.types && w.types[key].methods.Methods?
  {
    if c.byteElem && !w.types[key].methods.encode && IsByte(under) then Found(under, st)
    else Noted(Leaf(Marshaler, key), MarshalerNoted, st)
  }

  lemma LocalUnfolds(w: World, key: TypeKey, c: Context, stack: seq<TypeKey>, st: State, mode: Mode)
    ensures OpensName(w, key, stack) && TakesDecls(w, key, c, mode) ==>
              ResolveLocal(w, key, c, stack, st, mode) == Merged(key, ResolveEach(w, key, w.types[key].decls, c, stack + [key], st, mode))
    ensures OpensName(w, key, stack) && RunsQuietly(w, key, c, mode) ==>
              ResolveLocal(w, key, c, stack, st, mode)
              == QuietOutcome(w, key, c, Merged(key, ResolveEach(w, key, w.types[key].decls, c.(inline := false), stack + [key], st, Underlying)).shape, st)
    ensures !(OpensName(w, key, stack) && (TakesDecls(w, key, c, mode) || RunsQuietly(w, key, c, mode))) ==>
              var o := ResolveLocal(w, key, c, stack, st, mode);
              o == Outcome(o.shape, o.note, false, o.refs, NoTrees, st)
              && forall other :: ResolveLocal(w, key, c, stack, other, mode) == o.(st := other)
  {
    hide ResolveEach, Merged;
  }

  lemma LiteralUnfolds(w: World, key: Literal, written: string, c: Context, stack: seq<TypeKey>, st: State)
    ensures var r, info := ResolveLiteral(w, key, written, c, stack, st), InfoOf(w, key);
            if !c.inline then r == Found(Literal(false, written), st)
            else if info.methods != NoMethods then r == StructLeaf(info.methods, LITERAL_CUT.name, st)
            else if Closes(st, key) then r == Outcome(LITERAL_CUT, Some(RecursiveNoted), false, map[], Grown(Cycle, NoTrees), Joined(st, key))
            else if c.depth + 1 > MAX_DEPTH || (st.open != [] && st.extracts >= MAX_EXTRACTIONS)
            then r == Outcome(LITERAL_CUT, None, true, map[], r.trees, st) && (r.trees == Grown(TooDeep, NoTrees) || r.trees == Grown(TooMany, NoTrees))
            else var fs := ResolveFields(w, info.fields, c.depth + 1, Opened(st, key));
                 r == Outcome(Literal(true, written), None, false, fs.refs, Grown(Expanded(key, fs.trees), NoTrees), Closed(fs.st))
  {
  }

  lemma NoDecls(w: World, key: TypeKey, c: Context, stack: seq<TypeKey>, st: State, mode: Mode)
    ensures ResolveEach(w, key, [], c, stack, st, mode) == Outcomes([], None, false, map[], false, NoTrees, st)
  {
  }

  lemma OneDeclMore(w: World, key: TypeKey, decls: seq<Decl>, i: nat, c: Context, stack: seq<TypeKey>, st: State, mode: Mode)
    requires i < |decls|
    ensures var rest := ResolveEach(w, key, decls[..i], c, stack, st, mode);
            ResolveEach(w, key, decls[..i + 1], c, stack, st, mode) == AddDecl(rest, ResolveDecl(w, key, decls[i], c, stack, rest.st, mode))
  {
    assert decls[..i + 1][..i] == decls[..i];
  }

  // ----- what is kept

  /** From st to r: trees are the literals met on the way. */
  ghost predicate Kept(st: State, r: State, trees: Trees) {
    && Sane(r) && r.open == st.open && NoneInsideAll(trees, st.open) && AllWithin(trees)
    && (st.open != [] ==> Grew(st, r) && r.extracts == st.extracts + SizeAll(trees))
  }

  lemma KeptNothing(st: State)
    requires Sane(st)
    ensures Kept(st, st, NoTrees) && Kept(st, st, Grown(TooDeep, NoTrees)) && Kept(st, st, Grown(TooMany, NoTrees))
  {
    OneTree(TooDeep, st.open);
    OneTree(TooMany, st.open);
  }

  lemma KeptThen(st: State, a: State, some: Trees, b: State, more: Trees)
    requires Kept(st, a, some) && Kept(a, b, more)
    ensures Kept(st, b, Append(some, more))
  {
    AppendFacts(some, more, st.open);
  }

  lemma CutKeeps(st: State, k: Literal)
    requires Sane(st) && Closes(st, k)
    ensures Kept(st, Joined(st, k), Grown(Cycle, NoTrees))
  {
    JoinIsSane(st, k);
  }

  lemma OneTree(tree: Tree, open: seq<Literal>)
    requires Size(tree) <= MAX_EXTRACTIONS && NoneInside(tree, open)
    ensures NoneInsideAll(Grown(tree, NoTrees), open) && AllWithin(Grown(tree, NoTrees)) && SizeAll(Grown(tree, NoTrees)) == Size(tree)
  {
  }

  /** Expanding a literal whose fields kept what they should. */
  lemma ExpansionKeeps(st: State, k: Literal, r: State, fields: Trees)
    requires Sane(st) && !Closes(st, k) && (st.open == [] || st.extracts < MAX_EXTRACTIONS)
    requires Kept(Opened(st, k), r, fields)
    ensures Kept(st, Closed(r), Grown(Expanded(k, fields), NoTrees))
  {
    OpenIsSane(st, k);
    CloseIsSane(r);
    assert r.open[..|r.open| - 1] == st.open;
    hide Forest, Closes, FirstOpen;
    var tree := Expanded(k, fields);
    assert SizeAll(Grown(tree, NoTrees)) == Size(tree) == 1 + SizeAll(fields);
    assert r.extracts <= MAX_EXTRACTIONS && r.extracts >= 1 + SizeAll(fields);
    assert Opened(st, k).open == st.open + [k] && NoneInside(tree, st.open);
    OneTree(tree, st.open);
    if st.open != [] {
      assert Opened(st, k).cycles == st.cycles && Closed(r).cycles == r.cycles;
      assert Grew(st, Closed(r)) by {
        forall a, b | SameClass(st.cycles, a, b) ensures SameClass(r.cycles, a, b) {
          assert SameClass(Opened(st, k).cycles, a, b);
        }
      }
    }
  }

  // ----- every resolution keeps it

  lemma {:induction false} ResolveKeeps(w: World, s: Written, c: Context, stack: seq<TypeKey>, st: State)
    requires Sane(st)
    ensures var o := Resolve(w, s, c, stack, st); Kept(st, o.st, o.trees)
    decreases Levels(c.depth), Room(stack), 1, s
  {
    hide Kept;
    KeptNothing(st);
    match s
    case Boxed(box, elem) =>
      if elem.Some? {
        ResolveKeeps(w, elem.value, c.(byteElem := box == Slice), stack, st);
      }
    case Name(key) => LocalKeeps(w, key, c, stack, st, Identity);
    case Qualifies(_, q) =>
      if q.NamedType? {
        LocalKeeps(w, q.key, c, stack, st, Identity);
      }
    case Basic(_) =>
    case Generic(_) =>
    case Anonymous(key, written) => LiteralKeeps(w, key, written, c, stack, st);
    case Unmodelled =>
  }

  lemma {:induction false} LiteralKeeps(w: World, key: Literal, written: string, c: Context, stack: seq<TypeKey>, st: State)
    requires Sane(st)
    ensures var o := ResolveLiteral(w, key, written, c, stack, st); Kept(st, o.st, o.trees)
    decreases Levels(c.depth), Room(stack), 0
  {
    hide Kept, ResolveLiteral, ResolveFields, Closes, Sane;
    KeptNothing(st);
    LiteralUnfolds(w, key, written, c, stack, st);
    if c.inline && InfoOf(w, key).methods == NoMethods {
      if Closes(st, key) {
        CutKeeps(st, key);
      } else if c.depth + 1 <= MAX_DEPTH && (st.open == [] || st.extracts < MAX_EXTRACTIONS) {
        OpenIsSane(st, key);
        var fields := InfoOf(w, key).fields;
        FieldsKeep(w, fields, c.depth + 1, Opened(st, key));
        var fs := ResolveFields(w, fields, c.depth + 1, Opened(st, key));
        ExpansionKeeps(st, key, fs.st, fs.trees);
      }
    }
  }

  lemma {:induction false} FieldsKeep(w: World, fields: seq<LiteralField>, depth: nat, st: State)
    requires Sane(st)
    ensures var r := ResolveFields(w, fields, depth, st); Kept(st, r.st, r.trees)
    decreases Levels(depth), MAX_OPEN + 1, 0, |fields|
  {
    if fields == [] {
      KeptNothing(st);
    } else {
      var f := fields[|fields| - 1];
      FieldsKeep(w, fields[..|fields| - 1], depth, st);
      var rest := ResolveFields(w, fields[..|fields| - 1], depth, st);
      if !f.excluded {
        ResolveKeeps(w, f.written, FieldContext(f, depth), [], rest.st);
        var o := Resolve(w, f.written, FieldContext(f, depth), [], rest.st);
        KeptThen(st, rest.st, rest.trees, o.st, o.trees);
      }
    }
  }

  lemma {:induction false} LocalKeeps(w: World, key: TypeKey, c: Context, stack: seq<TypeKey>, st: State, mode: Mode)
    requires Sane(st)
    ensures var o := ResolveLocal(w, key, c, stack, st, mode); Kept(st, o.st, o.trees)
    decreases Levels(c.depth), Room(stack), 0
  {
    hide Kept, ResolveLocal, ResolveEach, Cut;
    KeptNothing(st);
    LocalUnfolds(w, key, c, stack, st, mode);
    if OpensName(w, key, stack) && TakesDecls(w, key, c, mode) {
      RoomShrinks(w, key, stack);
      EachKeeps(w, key, w.types[key].decls, c, stack + [key], st, mode);
    }
  }

  lemma RoomShrinks(w: World, key: TypeKey, stack: seq<TypeKey>)
    requires OpensName(w, key, stack)
    ensures 0 <= Room(stack + [key]) < Room(stack)
  {
  }

  lemma {:induction false} EachKeeps(w: World, key: TypeKey, decls: seq<Decl>, c: Context, stack: seq<TypeKey>, st: State, mode: Mode)
    requires Sane(st)
    ensures var r := ResolveEach(w, key, decls, c, stack, st, mode); Kept(st, r.st, r.trees)
    decreases Levels(c.depth), Room(stack), 3, |decls|
  {
    if decls == [] {
      KeptNothing(st);
    } else {
      var d := decls[|decls| - 1];
      EachKeeps(w, key, decls[..|decls| - 1], c, stack, st, mode);
      var rest := ResolveEach(w, key, decls[..|decls| - 1], c, stack, st, mode);
      DeclKeeps(w, key, d, c, stack, rest.st, mode);
      var last := ResolveDecl(w, key, d, c, stack, rest.st, mode);
      KeptThen(st, rest.st, rest.trees, last.st, last.trees);
    }
  }

  lemma {:induction false} DeclKeeps(w: World, key: TypeKey, d: Decl, c: Context, stack: seq<TypeKey>, st: State, mode: Mode)
    requires Sane(st)
    ensures var o := ResolveDecl(w, key, d, c, stack, st, mode); Kept(st, o.st, o.trees)
    decreases Levels(c.depth), Room(stack), 2
  {
    hide Kept;
    KeptNothing(st);
    if mode == Identity && d.alias {
      ResolveKeeps(w, d.rhs, c, stack, st);
    } else if d.rhs.Name? {
      LocalKeeps(w, d.rhs.key, c, stack, st, Underlying);
    } else if d.rhs.Qualifies? {
      if KindBackedUnderlying(d.rhs.q).None? && (d.rhs.q.NamedType? || d.rhs.q.StructType?) {
        LocalKeeps(w, d.rhs.q.key, c, stack, st, Underlying);
      }
    } else {
      ResolveKeeps(w, d.rhs, c, stack, st);
    }
  }

  /** A field or payload by itself expands no literal inside itself, and at most the limit of them in each. */
  lemma FieldIsSmall(w: World, s: Written, c: Context, st: State)
    requires Sane(st) && st.open == []
    ensures var o := Resolve(w, s, c, [], st);
            Sane(o.st) && o.st.open == [] && AllWithin(o.trees) && NoneInsideAll(o.trees, [])
  {
    ResolveKeeps(w, s, c, [], st);
  }

  // ----- cut until closed

  /** A literal on a cycle with an open one is cut until that one closes, whatever is resolved in between. */
  lemma CutUntilClosed(w: World, st: State, o: Literal, k: Literal, written: string, between: seq<LiteralField>, depth: nat, c: Context, stack: seq<TypeKey>)
    requires Sane(st) && o in st.open && SameClass(st.cycles, o, k) && c.inline && InfoOf(w, k).methods == NoMethods
    ensures var now := ResolveFields(w, between, depth, st).st;
            var r := Resolve(w, Anonymous(k, written), c, stack, now);
            r.shape == LITERAL_CUT && r.note == Some(RecursiveNoted) && r.trees == Grown(Cycle, NoTrees)
  {
    FieldsKeep(w, between, depth, st);
    hide ResolveFields, Forest, Root;
    var now := ResolveFields(w, between, depth, st).st;
    var i :| 0 <= i < |now.open| && now.open[i] == o;
    assert SameClass(now.cycles, now.open[i], k);
    assert Closes(now, k);
  }

  // ----- nothing is remembered

  /** Between outermost literals nothing is held but how many the last one opened. */
  ghost predicate Idle(st: State) {
    Sane(st) && st.open == []
  }

  /** a and b, but for the count. */
  ghost predicate SameBut(a: Outcome, b: Outcome) {
    && a.shape == b.shape && a.note == b.note && a.limited == b.limited && a.refs == b.refs && a.trees == b.trees
    && Idle(a.st) && Idle(b.st)
  }

  ghost predicate SameButAll(a: Outcomes, b: Outcomes) {
    && a.shapes == b.shapes && a.note == b.note && a.limited == b.limited && a.refs == b.refs && a.clashed == b.clashed && a.trees == b.trees
    && Idle(a.st) && Idle(b.st)
  }

  /** What a field or payload resolves to does not depend on what was resolved before. */
  lemma {:induction false} HistoryForgotten(w: World, s: Written, c: Context, stack: seq<TypeKey>, st: State, other: State)
    requires Idle(st) && Idle(other)
    ensures SameBut(Resolve(w, s, c, stack, st), Resolve(w, s, c, stack, other))
    decreases Levels(c.depth), Room(stack), 1, s
  {
    match s
    case Boxed(box, elem) =>
      if elem.Some? {
        HistoryForgotten(w, elem.value, c.(byteElem := box == Slice), stack, st, other);
      }
    case Name(key) => LocalForgets(w, key, c, stack, st, other, Identity);
    case Qualifies(_, q) =>
      if q.NamedType? {
        LocalForgets(w, q.key, c, stack, st, other, Identity);
      }
    case Basic(_) =>
    case Generic(_) =>
    case Anonymous(key, written) => LiteralForgets(w, key, written, c, stack, st, other);
    case Unmodelled =>
  }

  lemma LiteralForgets(w: World, key: Literal, written: string, c: Context, stack: seq<TypeKey>, st: State, other: State)
    requires Idle(st) && Idle(other)
    ensures SameBut(ResolveLiteral(w, key, written, c, stack, st), ResolveLiteral(w, key, written, c, stack, other))
  {
    assert Opened(st, key) == Opened(other, key);
    LiteralKeeps(w, key, written, c, stack, st);
    LiteralKeeps(w, key, written, c, stack, other);
  }

  lemma MergedAlike(key: TypeKey, a: Outcomes, b: Outcomes)
    requires a.shapes != [] && SameButAll(a, b)
    ensures SameBut(Merged(key, a), Merged(key, b))
  {
  }

  lemma {:induction false} LocalForgets(w: World, key: TypeKey, c: Context, stack: seq<TypeKey>, st: State, other: State, mode: Mode)
    requires Idle(st) && Idle(other)
    ensures SameBut(ResolveLocal(w, key, c, stack, st, mode), ResolveLocal(w, key, c, stack, other, mode))
    decreases Levels(c.depth), Room(stack), 0
  {
    hide Sane, Merged, ResolveLocal, ResolveEach, Cut;
    LocalUnfolds(w, key, c, stack, st, mode);
    LocalUnfolds(w, key, c, stack, other, mode);
    if OpensName(w, key, stack) {
      RoomShrinks(w, key, stack);
      var decls, more, quiet := w.types[key].decls, stack + [key], c.(inline := false);
      if TakesDecls(w, key, c, mode) {
        EachForgets(w, key, decls, c, more, st, other, mode);
        MergedAlike(key, ResolveEach(w, key, decls, c, more, st, mode), ResolveEach(w, key, decls, c, more, other, mode));
      } else if RunsQuietly(w, key, c, mode) {
        EachForgets(w, key, decls, quiet, more, st, other, Underlying);
        MergedAlike(key, ResolveEach(w, key, decls, quiet, more, st, Underlying), ResolveEach(w, key, decls, quiet, more, other, Underlying));
      }
    }
  }

  lemma {:induction false} EachForgets(w: World, key: TypeKey, decls: seq<Decl>, c: Context, stack: seq<TypeKey>, st: State, other: State, mode: Mode)
    requires Idle(st) && Idle(other)
    ensures SameButAll(ResolveEach(w, key, decls, c, stack, st, mode), ResolveEach(w, key, decls, c, stack, other, mode))
    decreases Levels(c.depth), Room(stack), 3, |decls|
  {
    hide Sane;
    if decls != [] {
      var some, d := decls[..|decls| - 1], decls[|decls| - 1];
      EachForgets(w, key, some, c, stack, st, other, mode);
      DeclForgets(w, key, d, c, stack, ResolveEach(w, key, some, c, stack, st, mode).st, ResolveEach(w, key, some, c, stack, other, mode).st, mode);
    }
  }

  lemma {:induction false} DeclForgets(w: World, key: TypeKey, d: Decl, c: Context, stack: seq<TypeKey>, st: State, other: State, mode: Mode)
    requires Idle(st) && Idle(other)
    ensures SameBut(ResolveDecl(w, key, d, c, stack, st, mode), ResolveDecl(w, key, d, c, stack, other, mode))
    decreases Levels(c.depth), Room(stack), 2
  {
    hide Sane;
    if mode == Identity && d.alias {
      HistoryForgotten(w, d.rhs, c, stack, st, other);
    } else if d.rhs.Name? {
      LocalForgets(w, d.rhs.key, c, stack, st, other, Underlying);
    } else if d.rhs.Qualifies? {
      if KindBackedUnderlying(d.rhs.q).None? && (d.rhs.q.NamedType? || d.rhs.q.StructType?) {
        LocalForgets(w, d.rhs.q.key, c, stack, st, other, Underlying);
      }
    } else {
      HistoryForgotten(w, d.rhs, c, stack, st, other);
    }
  }

  // ----- a quiet run expands nothing

  lemma {:induction false} QuietLeaves(w: World, s: Written, c: Context, stack: seq<TypeKey>, st: State)
    requires !c.inline
    ensures var o := Resolve(w, s, c, stack, st); o.st == st && o.trees == NoTrees && !o.limited
    decreases Levels(c.depth), Room(stack), 1, s
  {
    match s
    case Boxed(box, elem) =>
      if elem.Some? {
        QuietLeaves(w, elem.value, c.(byteElem := box == Slice), stack, st);
      }
    case Name(key) => QuietLocal(w, key, c, stack, st, Identity);
    case Qualifies(_, q) =>
      if q.NamedType? {
        QuietLocal(w, q.key, c, stack, st, Identity);
      }
    case Basic(_) =>
    case Generic(_) =>
    case Anonymous(_, _) =>
    case Unmodelled =>
  }

  lemma {:induction false} QuietLocal(w: World, key: TypeKey, c: Context, stack: seq<TypeKey>, st: State, mode: Mode)
    requires !c.inline
    ensures var o := ResolveLocal(w, key, c, stack, st, mode); o.st == st && o.trees == NoTrees && !o.limited
    decreases Levels(c.depth), Room(stack), 0
  {
    hide ResolveLocal, ResolveEach, Cut;
    LocalUnfolds(w, key, c, stack, st, mode);
    if OpensName(w, key, stack) && TakesDecls(w, key, c, mode) {
      RoomShrinks(w, key, stack);
      QuietEach(w, key, w.types[key].decls, c, stack + [key], st, mode);
    }
  }

  lemma {:induction false} QuietEach(w: World, key: TypeKey, decls: seq<Decl>, c: Context, stack: seq<TypeKey>, st: State, mode: Mode)
    requires !c.inline
    ensures var r := ResolveEach(w, key, decls, c, stack, st, mode); r.st == st && r.trees == NoTrees && !r.limited
    decreases Levels(c.depth), Room(stack), 3, |decls|
  {
    if decls != [] {
      QuietEach(w, key, decls[..|decls| - 1], c, stack, st, mode);
      QuietDecl(w, key, decls[|decls| - 1], c, stack, st, mode);
    }
  }

  lemma {:induction false} QuietDecl(w: World, key: TypeKey, d: Decl, c: Context, stack: seq<TypeKey>, st: State, mode: Mode)
    requires !c.inline
    ensures var o := ResolveDecl(w, key, d, c, stack, st, mode); o.st == st && o.trees == NoTrees && !o.limited
    decreases Levels(c.depth), Room(stack), 2
  {
    if mode == Identity && d.alias {
      QuietLeaves(w, d.rhs, c, stack, st);
    } else if d.rhs.Name? {
      QuietLocal(w, d.rhs.key, c, stack, st, Underlying);
    } else if d.rhs.Qualifies? {
      if KindBackedUnderlying(d.rhs.q).None? && (d.rhs.q.NamedType? || d.rhs.q.StructType?) {
        QuietLocal(w, d.rhs.q.key, c, stack, st, Underlying);
      }
    } else {
      QuietLeaves(w, d.rhs, c, stack, st);
    }
  }
}
