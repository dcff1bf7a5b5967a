/** One field's or payload's resolution, and the expansion it shares with all others, updated in place. */
module ResolutionState {
  import opened Wrappers
  import opened BuildTags
  import opened LiteralCycles
  import opened Resolution
  import opened ResolutionCycles
  import M = ResolutionMeaning

  /** The names open, the first fallback met, and the structs referred to. */
  class ResolveState {
    const expander: LiteralExpander
    var stack: seq<TypeKey>
    var first: Option<Fallback>
    var limited: bool
    var refs: Refs

    /** No name is open twice, and no more than the limit. */
    ghost predicate Valid()
      reads this, expander
    {
      && |stack| <= MAX_OPEN && (forall i, j | 0 <= i < j < |stack| :: stack[i] != stack[j])
      && Sane(expander.Current())
    }

    constructor (expander: LiteralExpander)
      requires Sane(expander.Current())
      ensures Valid() && this.expander == expander && stack == [] && first == None && !limited && refs == map[]
    {
      this.expander := expander;
      stack, first, limited, refs := [], None, false, map[];
    }

    /** A private copy: what is noted in it is discarded. */
    constructor Quiet(of: ResolveState)
      requires of.Valid()
      ensures Valid() && expander == of.expander && stack == of.stack && first == None && !limited && refs == map[]
    {
      expander := of.expander;
      stack, first, limited, refs := of.stack, None, false, map[];
    }

    method Note(why: Fallback)
      modifies this`first
      ensures first == First(old(first), Some(why))
    {
      if first.None? {
        first := Some(why);
      }
    }

    /** What is handed back from state that now holds o's notes as well. */
    twostate predicate Took(o: Outcome, shape: Shape)
      reads this, expander
    {
      && Valid() && stack == old(stack) && shape == o.shape && first == First(old(first), o.note) && limited == (old(limited) || o.limited)
      && refs == o.refs && expander.Current() == o.st
    }

    method ResolveShape(w: World, s: Written, c: Context) returns (shape: Shape)
      requires Valid() && refs == map[]
      modifies this, expander
      ensures Took(Resolve(w, s, c, old(stack), old(expander.Current())), shape)
      decreases Levels(c.depth), Room(stack), 1, s
    {
      hide Sane;
      match s {
        case Boxed(box, elem) =>
          if elem.Some? {
            var e := ResolveShape(w, elem.value, c.(byteElem := box == Slice));
            shape := Container(box, Some(e));
          } else {
            shape := Container(box, None);
          }
        case Name(key) => shape := ResolveLocalName(w, key, c, Identity);
        case Qualifies(name, q) =>
          match q {
            case StructType(key, dir) =>
              if !c.param && key in w.types && w.types[key].structIdentity != NoMethods {
                shape := ResolveStructLeaf(w.types[key].structIdentity, key);
              } else {
                shape := RecordRef(name, dir);
              }
            case KindBacked(b) => shape := Builtin(b);
            case WellKnown(known) => shape := Leaf(Named, known);
            case NamedType(key) => shape := ResolveLocalName(w, key, c, Identity);
            case Unknown => Note(Unresolvable); shape := Leaf(Named, name);
          }
        case Basic(name) =>
          if name in UNTYPED_BUILTINS {
            Note(UntypedBuiltin);
          }
          shape := Builtin(name);
        case Generic(written) => Note(GenericNoted); shape := Leaf(Instantiation, written);
        case Anonymous(key, written) => shape := ResolveStruct(w, key, written, c);
        case Unmodelled => shape := Leaf(Sort.Unknown, "");
      }
    }

    method RecordRef(name: string, dir: string) returns (shape: Shape)
      requires Valid() && refs == map[]
      modifies this`refs
      ensures Valid() && refs == map[name := dir] && shape == Leaf(Reference, name)
    {
      if name !in refs {
        refs := refs[name := dir];
      }
      shape := Leaf(Reference, name);
    }

    method ResolveStructLeaf(m: Marshalers, key: TypeKey) returns (shape: Shape)
      requires Valid() && refs == map[]
      modifies this`first
      ensures Took(StructLeaf(m, key, old(expander.Current())), shape)
    {
      if m == TextBothWays {
        return Leaf(Text, key);
      }
      Note(MarshalerNoted);
      shape := Leaf(Marshaler, key);
    }

    /** An anonymous struct: kept, cut, or opened, its fields resolved one by one, and closed. */
    method ResolveStruct(w: World, key: Literal, written: string, c: Context) returns (shape: Shape)
      requires Valid() && refs == map[]
      modifies this, expander
      ensures Took(ResolveLiteral(w, key, written, c, old(stack), old(expander.Current())), shape)
      decreases Levels(c.depth), Room(stack), 0
    {
      hide Sane, Closes, Joined, Opened, Closed, ResolveLiteral, ResolveFields, InfoOf;
      LiteralUnfolds(w, key, written, c, stack, expander.Current());
      if !c.inline {
        return Literal(false, written);
      }
      var info := InfoOf(w, key);
      if info.methods != NoMethods {
        shape := ResolveStructLeaf(info.methods, LITERAL_CUT.name);
        return;
      }
      var cut := CutLiteral(key, c.depth + 1);
      if cut {
        return LITERAL_CUT;
      }
      refs := ExtractLiteral(w, key, info.fields, c.depth + 1);
      shape := Literal(true, written);
    }

    /** Whether a literal is cut, for a cycle, which is noted, or for a limit. */
    method CutLiteral(key: Literal, depth: nat) returns (cut: bool)
      requires Valid()
      modifies this`first, this`limited, expander
      ensures Valid()
      ensures var st := old(expander.Current());
              if Closes(st, key) then
                cut && expander.Current() == Joined(st, key) && first == First(old(first), Some(RecursiveNoted)) && limited == old(limited)
              else
                && cut == (depth > MAX_DEPTH || (st.open != [] && st.extracts >= MAX_EXTRACTIONS))
                && expander.Current() == st && first == old(first) && limited == (old(limited) || cut)
    {
      hide Sane, Closes, Joined;
      ghost var st := expander.Current();
      cut := expander.ClosesLiteralCycle(key);
      if cut {
        JoinIsSane(st, key);
        Note(RecursiveNoted);
        return;
      }
      if depth > MAX_DEPTH || (|expander.openLiterals| > 0 && expander.literalExtracts >= MAX_EXTRACTIONS) {
        limited := true;
        cut := true;
      }
    }

    /** Resolves the fields of a literal while it is open. */
    method ExtractLiteral(w: World, key: Literal, fields: seq<LiteralField>, depth: nat) returns (found: Refs)
      requires Sane(expander.Current()) && !Closes(expander.Current(), key) && depth <= MAX_DEPTH
      requires expander.openLiterals == [] || expander.literalExtracts < MAX_EXTRACTIONS
      modifies expander
      ensures Sane(expander.Current())
      ensures var r := ResolveFields(w, fields, depth, Opened(old(expander.Current()), key));
              found == r.refs && expander.Current() == Closed(r.st)
      decreases Levels(depth), MAX_OPEN + 1, 1
    {
      hide Sane, Closes;
      expander.OpenLiteral(key);
      ghost var inside := expander.Current();
      found := ExtractFields(w, fields, depth);
      assert ResolveFields(w, fields, depth, inside).st.open == inside.open;
      expander.CloseLiteral();
    }

    /** Every field in a state of its own. */
    method ExtractFields(w: World, fields: seq<LiteralField>, depth: nat) returns (found: Refs)
      requires Sane(expander.Current())
      modifies expander
      ensures Sane(expander.Current())
      ensures var r := ResolveFields(w, fields, depth, old(expander.Current())); found == r.refs && expander.Current() == r.st
      decreases Levels(depth), MAX_OPEN + 1, 0, |fields|
    {
      hide Sane, Resolve;
      found := map[];
      var i := 0;
      while i < |fields|
        invariant 0 <= i <= |fields| && Sane(expander.Current())
        invariant var r := ResolveFields(w, fields[..i], depth, old(expander.Current())); found == r.refs && expander.Current() == r.st
      {
        assert fields[..i + 1][..i] == fields[..i];
        if !fields[i].excluded {
          var field := new ResolveState(expander);
          var shape := field.ResolveShape(w, fields[i].written, FieldContext(fields[i], depth));
          found := field.refs + found;
        }
        i := i + 1;
      }
      assert fields[..i] == fields;
    }

    method ResolveLocalName(w: World, key: TypeKey, c: Context, mode: Mode) returns (shape: Shape)
      requires Valid() && refs == map[]
      modifies this, expander
      ensures Took(ResolveLocal(w, key, c, old(stack), old(expander.Current()), mode), shape)
      decreases Levels(c.depth), Room(stack), 0
    {
      hide Sane, ResolveDecls;
      if key in w.types && w.types[key].isStruct {
        var m := if mode == Identity then w.types[key].structIdentity else w.types[key].structUnderlying;
        if !c.param && m != NoMethods {
          shape := ResolveStructLeaf(m, key);
        } else {
          shape := RecordRef(key, w.types[key].dir);
        }
        return;
      }
      var why := Cut(stack, key);
      if why.Some? {
        Note(why.value);
        return Leaf(Recursive, key);
      }
      if key !in w.types || w.types[key].decls == [] {
        Note(Unresolvable);
        return Leaf(Named, key);
      }
      if mode == Identity && !c.param && w.types[key].methods != NoMethods {
        if w.types[key].methods == TextBothWays {
          return Leaf(Text, key);
        }
        shape := MarshalerLeaf(w, key, c);
        return;
      }
      shape := ResolveAllDecls(w, key, c, mode);
    }

    /** A Marshaler type, over what it is without its methods, resolved quietly. */
    method MarshalerLeaf(w: World, key: TypeKey, c: Context) returns (shape: Shape)
      requires Valid() && refs == map[] && OpensName(w, key, stack) && RunsQuietly(w, key, c, Identity)
      modifies this, expander
      ensures Took(ResolveLocal(w, key, c, old(stack), old(expander.Current()), Identity), shape)
      decreases Levels(c.depth), Room(stack) - 1, 5
    {
      hide Sane, ResolveLocal, ResolveEach;
      ghost var st := expander.Current();
      var quiet := c.(inline := false);
      LocalUnfolds(w, key, c, stack, st, Identity);
      QuietEach(w, key, w.types[key].decls, quiet, stack + [key], st, Underlying);
      var state := new ResolveState.Quiet(this);
      var under := state.ResolveAllDecls(w, key, quiet, Underlying);
      if c.byteElem && !w.types[key].methods.encode && IsByte(under) {
        return under;
      }
      Note(MarshalerNoted);
      shape := Leaf(Marshaler, key);
    }

    method ResolveEachDecl(w: World, key: TypeKey, decls: seq<Decl>, c: Context, mode: Mode) returns (results: seq<Shape>, clashed: bool)
      requires Valid() && refs == map[]
      modifies this, expander
      ensures TookAll(ResolveEach(w, key, decls, c, old(stack), old(expander.Current()), mode), results, clashed, refs)
      decreases Levels(c.depth), Room(stack), 3, |decls|
    {
      hide Sane, ResolveDecl, ResolveEach, Clashes;
      NoDecls(w, key, c, stack, expander.Current(), mode);
      assert decls[..0] == [];
      var outer: Refs := map[];
      results, clashed := [], false;
      var i := 0;
      while i < |decls|
        invariant 0 <= i <= |decls|
        invariant TookAll(ResolveEach(w, key, decls[..i], c, old(stack), old(expander.Current()), mode), results, clashed, outer)
      {
        OneDeclMore(w, key, decls, i, c, old(stack), old(expander.Current()), mode);
        refs := map[];
        var r := ResolveOneDecl(w, key, decls[i], c, mode);
        results := results + [r];
        clashed := clashed || Clashes(outer, refs);
        outer := refs + outer;
        i := i + 1;
      }
      assert decls[..i] == decls;
      refs := outer;
    }

    /** What is handed back from every declaration, with the structs they refer to. */
    twostate predicate TookAll(o: Outcomes, shapes: seq<Shape>, clashed: bool, found: Refs)
      reads this, expander
    {
      && Valid() && stack == old(stack) && shapes == o.shapes && first == First(old(first), o.note) && limited == (old(limited) || o.limited)
      && clashed == o.clashed && found == o.refs && expander.Current() == o.st
    }

    /** Resolves every declaration of key with key open, and merges them. */
    method ResolveAllDecls(w: World, key: TypeKey, c: Context, mode: Mode) returns (shape: Shape)
      requires Valid() && refs == map[] && key in w.types && w.types[key].decls != [] && Cut(stack, key).None?
      modifies this, expander
      ensures Took(ResolveDecls(w, key, w.types[key].decls, c, old(stack) + [key], old(expander.Current()), mode), shape)
      decreases Levels(c.depth), Room(stack) - 1, 4
    {
      hide Sane, ResolveEach, Merged;
      stack := stack + [key];
      var results, clashed := ResolveEachDecl(w, key, w.types[key].decls, c, mode);
      stack := stack[..|stack| - 1];
      shape := MergeResults(key, results, clashed, old(first), ResolveEach(w, key, w.types[key].decls, c, old(stack) + [key], old(expander.Current()), mode));
    }

    method MergeResults(key: TypeKey, results: seq<Shape>, clashed: bool, ghost before: Option<Fallback>, ghost rs: Outcomes) returns (shape: Shape)
      requires results != [] && results == rs.shapes && clashed == rs.clashed && first == First(before, rs.note)
      modifies this`first
      ensures var o := Merged(key, rs);
              && shape == o.shape && first == First(before, o.note)
              && o.limited == rs.limited && o.refs == rs.refs && o.st == rs.st
    {
      var merged := MergeDecls(results);
      if merged.Some? && !clashed {
        return merged.value;
      }
      var kind := FirstScalarKind(results);
      if kind != "" {
        return KindOnly(kind);
      }
      Note(DeclsDisagree);
      shape := Leaf(Named, key);
    }

    method ResolveOneDecl(w: World, key: TypeKey, d: Decl, c: Context, mode: Mode) returns (shape: Shape)
      requires Valid() && refs == map[]
      modifies this, expander
      ensures Took(ResolveDecl(w, key, d, c, old(stack), old(expander.Current()), mode), shape)
      decreases Levels(c.depth), Room(stack), 2
    {
      hide Sane;
      if mode == Identity && d.alias {
        shape := ResolveShape(w, d.rhs, c);
        return;
      }
      match d.rhs {
        case Name(target) => shape := ResolveLocalName(w, target, c, Underlying);
        case Qualifies(name, q) =>
          var u := KindBackedUnderlying(q);
          if u.Some? {
            return u.value;
          }
          if q.NamedType? || q.StructType? {
            shape := ResolveLocalName(w, q.key, c, Underlying);
          } else {
            Note(DefinedOverQualified);
            shape := Leaf(Named, key);
          }
        case _ => shape := ResolveShape(w, d.rhs, c);
      }
    }
  }

  // ----- payloads

  datatype PayloadWarning = UintptrWarning | FallbackWarning(why: Fallback) | GenericWarning | UnregisteredWarning(name: string)

  /** A payload types only if its root does, and nothing in it is unmodelled. */
  predicate PayloadResolves(s: Shape) {
    var root := Unpointed(s);
    && !(root.Leaf? && root.sort == Named && root.name !in WELL_KNOWN_NAMES)
    && !(LeafOf(s).Some? && LeafOf(s).value.Leaf? && (LeafOf(s).value.sort == Sort.Unknown || LeafOf(s).value.sort == Instantiation))
  }

  function Unpointed(s: Shape): Shape {
    if s.Container? && s.box == Pointer && s.elem.Some? then Unpointed(s.elem.value) else s
  }

  predicate IsTyped(s: Shape) {
    LeafOf(s).Some? ==> !IsFallbackLeaf(LeafOf(s).value)
  }

  function WithLeaf(s: Shape, leaf: Shape): Shape {
    if s.Container? then (if s.elem.Some? then Container(s.box, Some(WithLeaf(s.elem.value, leaf))) else s) else leaf
  }

  /** A reference that cannot register is demoted. */
  predicate IsDemoted(s: Shape, registers: set<string>) {
    LeafOf(s).Some? && LeafOf(s).value.Leaf? && LeafOf(s).value.sort == Reference && LeafOf(s).value.name !in registers
  }

  lemma {:induction false} LeafOfWith(s: Shape, leaf: Shape)
    requires LeafOf(s).Some? && !leaf.Container?
    ensures LeafOf(WithLeaf(s, leaf)) == Some(leaf)
    decreases s
  {
    if s.Container? {
      LeafOfWith(s.elem.value, leaf);
    }
  }

  const PAYLOAD := Context(false, false, true, 0)

  /**
   Resolves a payload, whatever was resolved before: handled tells whether it
   is typed, or was warned of as a generic one.  It is warned of at most once,
   and always where it ends up untyped, but for a literal at its limit, which
   warns by itself.
   */
  method ResolvePayload(w: World, s: Written, registers: set<string>, expander: LiteralExpander)
    returns (handled: bool, shape: Option<Shape>, warnings: seq<PayloadWarning>)
    requires WorldKnown(w) && NamesKnown(s) && Idle(expander.Current())
    modifies expander
    ensures Idle(expander.Current()) && |warnings| <= 1
    ensures var o := Resolve(w, s, PAYLOAD, [], old(expander.Current()));
            && (shape.Some? <==> PayloadResolves(o.shape))
            && (shape.None? ==> handled == (o.note == Some(GenericNoted)) && (handled <==> warnings == [GenericWarning]) && (!handled ==> warnings == []))
            && M.Means(w, s, PAYLOAD, M.Meaning(o.shape, o.refs), MAX_OPEN, true)
            && (shape.Some? ==> shape.value == if IsDemoted(o.shape, registers) then WithLeaf(o.shape, Leaf(Named, LeafOf(o.shape).value.name)) else o.shape)
            && (shape.Some? ==> handled && (!IsTyped(shape.value) ==> |warnings| == 1 || (LeafOf(shape.value) == Some(LITERAL_CUT) && o.limited)))
            && (shape.Some? ==>
                  if HoldsUintptr(o.shape) then warnings == [UintptrWarning]
                  else if o.note.Some? then warnings == [FallbackWarning(o.note.value)]
                  else if IsDemoted(o.shape, registers) then warnings == [UnregisteredWarning(LeafOf(o.shape).value.name)]
                  else warnings == [])
  {
    ghost var st := expander.Current();
    ResolveKeeps(w, s, PAYLOAD, [], st);
    ResolveIsLoud(w, s, PAYLOAD, [], st);
    M.ResolveMeans(w, s, PAYLOAD, [], st, true, 0);
    hide Sane, Resolve, WorldKnown, NamesKnown;
    var state := new ResolveState(expander);
    var resolved := state.ResolveShape(w, s, PAYLOAD);
    warnings := [];
    if !PayloadResolves(resolved) {
      handled := state.first == Some(GenericNoted);
      if handled {
        warnings := [GenericWarning];
      }
      return handled, None, warnings;
    }
    if HoldsUintptr(resolved) {
      warnings := [UintptrWarning];
    } else if state.first.Some? {
      warnings := [FallbackWarning(state.first.value)];
    }
    if IsDemoted(resolved, registers) {
      var name := LeafOf(resolved).value.name;
      if warnings == [] {
        warnings := [UnregisteredWarning(name)];
      }
      LeafOfWith(resolved, Leaf(Named, name));
      resolved := WithLeaf(resolved, Leaf(Named, name));
    }
    return true, Some(resolved), warnings;
  }

  /** What one payload resolves to does not depend on the payloads before it. */
  lemma PayloadsDoNotMeet(w: World, s: Written, st: State, other: State)
    requires Idle(st) && Idle(other)
    ensures SameBut(Resolve(w, s, PAYLOAD, [], st), Resolve(w, s, PAYLOAD, [], other))
  {
    HistoryForgotten(w, s, PAYLOAD, [], st, other);
  }
}
