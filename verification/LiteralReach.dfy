/**
 Which anonymous structs are cut: none that is not on a cycle of anonymous
 structs is ever cut for one, and what is on none is expanded up to the limits.
 */
module LiteralReach {
  import opened Wrappers
  import opened BuildTags
  import opened LiteralCycles
  import opened Resolution
  import opened ResolutionCycles

  // ----- which anonymous structs hold which

  /** Resolving s can come to k, opening at most n names one inside the other. */
  ghost predicate Meets(w: World, s: Written, k: Literal, n: nat)
    decreases n, 1, s
  {
    match s
    case Boxed(_, elem) => elem.Some? && Meets(w, elem.value, k, n)
    case Name(key) => NameMeets(w, key, k, n)
    case Qualifies(_, q) => (q.NamedType? || q.StructType?) && NameMeets(w, q.key, k, n)
    case Anonymous(key, _) => key == k
    case _ => false
  }

  ghost predicate NameMeets(w: World, key: TypeKey, k: Literal, n: nat)
    decreases n, 0
  {
    n > 0 && key in w.types && exists d <- w.types[key].decls :: Meets(w, d.rhs, k, n - 1)
  }

  /** A field of a holds b. */
  ghost predicate Inside(w: World, a: Literal, b: Literal) {
    exists f <- InfoOf(w, a).fields :: !f.excluded && Meets(w, f.written, b, MAX_OPEN)
  }

  /** b stands n levels down in a. */
  ghost predicate Down(w: World, a: Literal, b: Literal, n: nat)
    decreases n
  {
    if n == 0 then a == b else exists c :: Down(w, a, c, n - 1) && Inside(w, c, b)
  }

  ghost predicate Below(w: World, a: Literal, b: Literal) {
    exists n: nat :: Down(w, a, b, n)
  }

  /** Each stands in the other, or they are one. */
  ghost predicate OneCycle(w: World, a: Literal, b: Literal) {
    Below(w, a, b) && Below(w, b, a)
  }

  /** k stands somewhere in itself. */
  ghost predicate IsCyclic(w: World, k: Literal) {
    exists c :: Inside(w, k, c) && Below(w, c, k)
  }

  lemma {:induction false} DownThen(w: World, a: Literal, b: Literal, c: Literal, n: nat, m: nat)
    requires Down(w, a, b, n) && Down(w, b, c, m)
    ensures Down(w, a, c, n + m)
    decreases m
  {
    if m > 0 {
      var d :| Down(w, b, d, m - 1) && Inside(w, d, c);
      DownThen(w, a, b, d, n, m - 1);
    }
  }

  lemma BelowThen(w: World, a: Literal, b: Literal, c: Literal)
    requires Below(w, a, b) && Below(w, b, c)
    ensures Below(w, a, c)
  {
    var n: nat, m: nat :| Down(w, a, b, n) && Down(w, b, c, m);
    DownThen(w, a, b, c, n, m);
  }

  lemma InsideIsBelow(w: World, a: Literal, b: Literal)
    ensures Inside(w, a, b) ==> Below(w, a, b)
    ensures Below(w, a, a)
  {
    assert Down(w, a, a, 0);
    if Inside(w, a, b) {
      assert Down(w, a, b, 1);
    }
  }

  /** What stands below something other than itself starts with a step. */
  lemma {:induction false} DownStarts(w: World, a: Literal, b: Literal, n: nat)
    requires Down(w, a, b, n) && n > 0
    ensures exists c :: Inside(w, a, c) && Below(w, c, b)
    decreases n
  {
    var d :| Down(w, a, d, n - 1) && Inside(w, d, b);
    InsideIsBelow(w, d, b);
    if n == 1 {
      InsideIsBelow(w, b, b);
      assert Inside(w, a, b) && Below(w, b, b);
    } else {
      DownStarts(w, a, d, n - 1);
      var c :| Inside(w, a, c) && Below(w, c, d);
      BelowThen(w, c, d, b);
    }
  }

  lemma CycleOfTwo(w: World, a: Literal, b: Literal)
    requires Inside(w, a, b) && Below(w, b, a)
    ensures IsCyclic(w, a) && IsCyclic(w, b)
  {
    var n: nat :| Down(w, b, a, n);
    if n > 0 {
      DownStarts(w, b, a, n);
      var c :| Inside(w, b, c) && Below(w, c, a);
      InsideIsBelow(w, a, b);
      BelowThen(w, c, a, b);
    } else {
      assert a == b;
    }
  }

  // ----- the classes tell the truth

  /** The open literals hold one another, and literals of one class are on one cycle. */
  ghost predicate IsTrue(w: World, st: State) {
    && Sane(st)
    && (forall i | 0 <= i < |st.open| - 1 :: Inside(w, st.open[i], st.open[i + 1]))
    && ClassesAreCycles(w, st.cycles)
  }

  ghost predicate ClassesAreCycles(w: World, cycles: map<Literal, Literal>) {
    forall a, b | SameClass(cycles, a, b) :: OneCycle(w, a, b)
  }

  lemma NoClasses(w: World)
    ensures ClassesAreCycles(w, map[])
  {
    forall a, b | SameClass(map[], a, b) ensures OneCycle(w, a, b) {
      InsideIsBelow(w, a, b);
    }
  }

  lemma OneCycleThen(w: World, a: Literal, b: Literal, c: Literal)
    requires OneCycle(w, a, b) && OneCycle(w, b, c)
    ensures OneCycle(w, a, c) && OneCycle(w, c, a)
  {
    BelowThen(w, a, b, c);
    BelowThen(w, c, b, a);
  }

  lemma LinkIsTrue(w: World, cycles: map<Literal, Literal>, r: Literal, root: Literal)
    requires Forest(cycles) && r !in cycles && root !in cycles && r != root && ClassesAreCycles(w, cycles) && OneCycle(w, r, root)
    ensures ClassesAreCycles(w, cycles[r := root])
  {
    hide OneCycle, Root, Forest;
    LinkJoins(cycles, r, root);
    forall a, b | SameClass(cycles[r := root], a, b) ensures OneCycle(w, a, b) {
      ToRoot(w, cycles, a);
      ToRoot(w, cycles, b);
      Turned(w, r, root);
      Turned(w, b, Root(cycles, b));
      if Root(cycles, a) != Root(cycles, b) {
        OneCycleThen(w, a, Root(cycles, a), Root(cycles, b));
      }
      OneCycleThen(w, a, Root(cycles, b), b);
    }
  }

  lemma Turned(w: World, a: Literal, b: Literal)
    ensures OneCycle(w, a, b) <==> OneCycle(w, b, a)
  {
  }

  lemma ToRoot(w: World, cycles: map<Literal, Literal>, k: Literal)
    requires Forest(cycles) && ClassesAreCycles(w, cycles)
    ensures OneCycle(w, k, Root(cycles, k))
  {
    RootIsItself(cycles, Root(cycles, k));
    assert SameClass(cycles, k, Root(cycles, k));
  }

  lemma {:induction false} JoinsAreTrue(w: World, cycles: map<Literal, Literal>, root: Literal, keys: seq<Literal>)
    requires Forest(cycles) && root !in cycles && ClassesAreCycles(w, cycles) && forall k <- keys :: OneCycle(w, k, root)
    ensures ClassesAreCycles(w, JoinAll(cycles, root, keys))
    decreases |keys|
  {
    if keys != [] {
      var r := Root(cycles, keys[0]);
      var next := if r != root then cycles[r := root] else cycles;
      if r != root {
        ToRoot(w, cycles, keys[0]);
        Turned(w, keys[0], r);
        OneCycleThen(w, r, keys[0], root);
        LinkJoins(cycles, r, root);
        LinkIsTrue(w, cycles, r, root);
      }
      assert forall k <- keys[1..] :: k in keys;
      JoinsAreTrue(w, next, root, keys[1..]);
    }
  }

  /** Of the open literals each stands below those before it. */
  lemma {:induction false} OpenDescends(w: World, st: State, i: nat, j: nat)
    requires IsTrue(w, st) && i <= j < |st.open|
    ensures Below(w, st.open[i], st.open[j])
    decreases j
  {
    InsideIsBelow(w, st.open[i], st.open[i]);
    if i < j {
      OpenDescends(w, st, i, j - 1);
      InsideIsBelow(w, st.open[j - 1], st.open[j]);
      BelowThen(w, st.open[i], st.open[j - 1], st.open[j]);
    }
  }

  /** s stands in a field of the innermost open literal. */
  ghost predicate Holds(w: World, st: State, k: Literal) {
    st.open != [] ==> Inside(w, st.open[|st.open| - 1], k)
  }

  /** A literal cut for a cycle is on one, and the classes joined are. */
  lemma CutIsOnCycle(w: World, st: State, k: Literal)
    requires IsTrue(w, st) && Closes(st, k) && Holds(w, st, k)
    ensures IsCyclic(w, k) && IsTrue(w, Joined(st, k))
  {
    hide Forest, Root, Down;
    var i, last := FirstOpen(st, k, 0), st.open[|st.open| - 1];
    var first := st.open[i];
    assert SameClass(st.cycles, first, k) && OneCycle(w, first, k);
    OpenDescends(w, st, i, |st.open| - 1);
    BelowThen(w, k, first, last);
    CycleOfTwo(w, last, k);
    JoinIsSane(st, k);
    var root := Root(st.cycles, k);
    forall x | x in st.open[i + 1..] ensures OneCycle(w, x, root) {
      var j :| 0 <= j < |st.open[i + 1..]| && st.open[i + 1..][j] == x;
      assert st.open[i + 1 + j] == x;
      OpenDescends(w, st, i, i + 1 + j);
      OpenDescends(w, st, i + 1 + j, |st.open| - 1);
      InsideIsBelow(w, last, k);
      BelowThen(w, x, last, k);
      BelowThen(w, k, first, x);
      ToRoot(w, st.cycles, k);
      OneCycleThen(w, x, k, root);
    }
    RootFree(st.cycles, k);
    JoinsAreTrue(w, st.cycles, root, st.open[i + 1..]);
  }

  lemma RootFree(cycles: map<Literal, Literal>, k: Literal)
    requires Forest(cycles)
    ensures Root(cycles, k) !in cycles
  {
  }

  lemma OpenIsTrue(w: World, st: State, k: Literal)
    requires IsTrue(w, st) && Holds(w, st, k) && !Closes(st, k) && (st.open == [] || st.extracts < MAX_EXTRACTIONS)
    ensures IsTrue(w, Opened(st, k))
  {
    OpenIsSane(st, k);
  }

  lemma CloseIsTrue(w: World, st: State)
    requires IsTrue(w, st) && st.open != []
    ensures IsTrue(w, Closed(st))
  {
    CloseIsSane(st);
    NoClasses(w);
  }

  // ----- every resolution keeps to it

  /** No literal is cut for a cycle anywhere in ts. */
  predicate Uncut(ts: Trees) {
    ts.Grown? ==> !ts.head.Cycle? && (ts.head.Expanded? ==> Uncut(ts.head.fields)) && Uncut(ts.tail)
  }

  lemma {:induction false} UncutBoth(a: Trees, b: Trees)
    ensures Uncut(Append(a, b)) <==> Uncut(a) && Uncut(b)
    decreases a
  {
    if a.Grown? {
      UncutBoth(a.tail, b);
    }
  }

  ghost predicate NoneCyclic(w: World) {
    forall k :: !IsCyclic(w, k)
  }

  /** From st to r: the classes stay true, and where no literal is on a cycle none is cut for one. */
  ghost predicate Told(w: World, st: State, r: State, trees: Trees) {
    IsTrue(w, r) && r.open == st.open && (NoneCyclic(w) ==> Uncut(trees))
  }

  lemma ToldThen(w: World, st: State, a: State, some: Trees, b: State, more: Trees)
    requires Told(w, st, a, some) && Told(w, a, b, more)
    ensures Told(w, st, b, Append(some, more))
  {
    UncutBoth(some, more);
  }

  lemma ToldNothing(w: World, st: State)
    requires IsTrue(w, st)
    ensures Told(w, st, st, NoTrees) && Told(w, st, st, Grown(TooDeep, NoTrees)) && Told(w, st, st, Grown(TooMany, NoTrees))
  {
  }

  lemma {:induction false} ResolveTells(w: World, s: Written, c: Context, stack: seq<TypeKey>, st: State)
    requires IsTrue(w, st) && forall k | Meets(w, s, k, Fuel(stack)) :: Holds(w, st, k)
    ensures var o := Resolve(w, s, c, stack, st); Told(w, st, o.st, o.trees)
    decreases Levels(c.depth), Room(stack), 1, s
  {
    hide Told, IsTrue, Holds;
    ToldNothing(w, st);
    match s
    case Boxed(box, elem) =>
      if elem.Some? {
        ResolveTells(w, elem.value, c.(byteElem := box == Slice), stack, st);
      }
    case Name(key) => LocalTells(w, key, c, stack, st, Identity);
    case Qualifies(_, q) =>
      if q.NamedType? {
        LocalTells(w, q.key, c, stack, st, Identity);
      }
    case Anonymous(key, written) =>
      assert Meets(w, s, key, Fuel(stack));
      LiteralTells(w, key, written, c, stack, st);
    case _ =>
  }

  lemma {:induction false} LiteralTells(w: World, key: Literal, written: string, c: Context, stack: seq<TypeKey>, st: State)
    requires IsTrue(w, st) && Holds(w, st, key)
    ensures var o := ResolveLiteral(w, key, written, c, stack, st); Told(w, st, o.st, o.trees)
    decreases Levels(c.depth), Room(stack), 0
  {
    hide Told, ResolveLiteral, ResolveFields, Closes, IsTrue, Holds, Joined, Opened, Closed, InfoOf, Sane, Root, Inside, Below, IsCyclic;
    ToldNothing(w, st);
    LiteralUnfolds(w, key, written, c, stack, st);
    if c.inline && InfoOf(w, key).methods == NoMethods {
      if Closes(st, key) {
        CutIsOnCycle(w, st, key);
        CutTells(w, st, key);
      } else if c.depth + 1 <= MAX_DEPTH && (st.open == [] || st.extracts < MAX_EXTRACTIONS) {
        OpenIsTrue(w, st, key);
        OpenedEndsIn(st, key);
        var fields := InfoOf(w, key).fields;
        FieldsTell(w, fields, c.depth + 1, Opened(st, key), key);
        var fs := ResolveFields(w, fields, c.depth + 1, Opened(st, key));
        ExpansionTells(w, st, key, fs.st, fs.trees);
      }
    }
  }

  lemma OpenedEndsIn(st: State, k: Literal)
    ensures Opened(st, k).open != [] && Opened(st, k).open[|Opened(st, k).open| - 1] == k
  {
  }

  lemma CutTells(w: World, st: State, k: Literal)
    requires Closes(st, k) && IsTrue(w, Joined(st, k)) && IsCyclic(w, k)
    ensures Told(w, st, Joined(st, k), Grown(Cycle, NoTrees))
  {
  }

  lemma ExpansionTells(w: World, st: State, k: Literal, r: State, fields: Trees)
    requires Told(w, Opened(st, k), r, fields)
    ensures Told(w, st, Closed(r), Grown(Expanded(k, fields), NoTrees))
  {
    CloseIsTrue(w, r);
  }

  lemma {:induction false} FieldsTell(w: World, fields: seq<LiteralField>, depth: nat, st: State, a: Literal)
    requires IsTrue(w, st) && st.open != [] && st.open[|st.open| - 1] == a && forall f <- fields :: f in InfoOf(w, a).fields
    ensures var r := ResolveFields(w, fields, depth, st); Told(w, st, r.st, r.trees)
    decreases Levels(depth), MAX_OPEN + 1, 0, |fields|
  {
    if fields == [] {
      ToldNothing(w, st);
    } else {
      var init, f := fields[..|fields| - 1], fields[|fields| - 1];
      FieldsTell(w, init, depth, st, a);
      var rest := ResolveFields(w, init, depth, st);
      if !f.excluded {
        assert f in InfoOf(w, a).fields;
        ResolveTells(w, f.written, FieldContext(f, depth), [], rest.st);
        var o := Resolve(w, f.written, FieldContext(f, depth), [], rest.st);
        ToldThen(w, st, rest.st, rest.trees, o.st, o.trees);
      }
    }
  }

  lemma {:induction false} LocalTells(w: World, key: TypeKey, c: Context, stack: seq<TypeKey>, st: State, mode: Mode)
    requires IsTrue(w, st) && forall k | NameMeets(w, key, k, Fuel(stack)) :: Holds(w, st, k)
    ensures var o := ResolveLocal(w, key, c, stack, st, mode); Told(w, st, o.st, o.trees)
    decreases Levels(c.depth), Room(stack), 0
  {
    hide Told, ResolveLocal, ResolveEach, Cut, IsTrue, Holds;
    ToldNothing(w, st);
    LocalUnfolds(w, key, c, stack, st, mode);
    if OpensName(w, key, stack) && TakesDecls(w, key, c, mode) {
      RoomShrinks(w, key, stack);
      forall d, k | d in w.types[key].decls && Meets(w, d.rhs, k, Fuel(stack + [key])) ensures Holds(w, st, k) {
        assert Fuel(stack + [key]) == Fuel(stack) - 1 && NameMeets(w, key, k, Fuel(stack));
      }
      EachTells(w, key, w.types[key].decls, c, stack + [key], st, mode);
    }
  }

  lemma {:induction false} EachTells(w: World, key: TypeKey, decls: seq<Decl>, c: Context, stack: seq<TypeKey>, st: State, mode: Mode)
    requires IsTrue(w, st) && forall d, k | d in decls && Meets(w, d.rhs, k, Fuel(stack)) :: Holds(w, st, k)
    ensures var r := ResolveEach(w, key, decls, c, stack, st, mode); Told(w, st, r.st, r.trees)
    decreases Levels(c.depth), Room(stack), 3, |decls|
  {
    if decls == [] {
      ToldNothing(w, st);
    } else {
      var init, d := decls[..|decls| - 1], decls[|decls| - 1];
      EachTells(w, key, init, c, stack, st, mode);
      var rest := ResolveEach(w, key, init, c, stack, st, mode);
      forall k | Meets(w, d.rhs, k, Fuel(stack)) ensures Holds(w, rest.st, k) {
        assert d in decls && Holds(w, st, k);
      }
      DeclTells(w, key, d, c, stack, rest.st, mode);
      var last := ResolveDecl(w, key, d, c, stack, rest.st, mode);
      ToldThen(w, st, rest.st, rest.trees, last.st, last.trees);
    }
  }

  lemma {:induction false} DeclTells(w: World, key: TypeKey, d: Decl, c: Context, stack: seq<TypeKey>, st: State, mode: Mode)
    requires IsTrue(w, st) && forall k | Meets(w, d.rhs, k, Fuel(stack)) :: Holds(w, st, k)
    ensures var o := ResolveDecl(w, key, d, c, stack, st, mode); Told(w, st, o.st, o.trees)
    decreases Levels(c.depth), Room(stack), 2
  {
    hide Told, IsTrue, Holds;
    ToldNothing(w, st);
    if mode == Identity && d.alias {
      ResolveTells(w, d.rhs, c, stack, st);
    } else if d.rhs.Name? {
      LocalTells(w, d.rhs.key, c, stack, st, Underlying);
    } else if d.rhs.Qualifies? {
      if KindBackedUnderlying(d.rhs.q).None? && (d.rhs.q.NamedType? || d.rhs.q.StructType?) {
        LocalTells(w, d.rhs.q.key, c, stack, st, Underlying);
      }
    } else {
      ResolveTells(w, d.rhs, c, stack, st);
    }
  }

  // ----- the result

  /** Where no anonymous struct stands in itself, none is ever cut for a cycle. */
  lemma AcyclicIsNeverCut(w: World, s: Written, c: Context, st: State)
    requires Idle(st) && NoneCyclic(w)
    ensures Uncut(Resolve(w, s, c, [], st).trees)
  {
    NoClasses(w);
    ResolveTells(w, s, c, [], st);
  }

  /** A literal that shares no class with an open one is expanded, within the limits. */
  lemma FreshIsExpanded(w: World, key: Literal, written: string, c: Context, stack: seq<TypeKey>, st: State)
    requires c.inline && InfoOf(w, key).methods == NoMethods && c.depth < MAX_DEPTH && (st.open == [] || st.extracts < MAX_EXTRACTIONS)
    requires forall o <- st.open :: !SameClass(st.cycles, o, key)
    ensures var o := Resolve(w, Anonymous(key, written), c, stack, st);
            o.shape == Literal(true, written) && o.note.None? && !o.limited && o.trees.Grown? && o.trees.head.Expanded? && o.trees.head.literal == key
  {
    hide ResolveLiteral, ResolveFields, ResolveLocal, Opened, Closed, Root;
    LiteralUnfolds(w, key, written, c, stack, st);
    assert !Closes(st, key);
  }
}
