/**
 Merging the declarations build tags choose between: away from anonymous
 structs, whether they merge, and into what, does not depend on the order they
 are read in.
 */
module BuildTags {
  import opened Wrappers

  datatype Box = Pointer | Slice | Array | Map

  /** The leaves that merge only with one of their own sort and name. */
  datatype Sort = Named | Reference | Text | Marshaler | Recursive | Instantiation | Unknown

  /** What a type resolves to; KindOnly: a scalar known by its OpenAPI kind alone. */
  datatype Shape =
    | Container(box: Box, elem: Option<Shape>)
    | Builtin(name: string)
    | KindOnly(kind: string)
    | Leaf(sort: Sort, name: string)
    | Literal(extracted: bool, written: string) // an anonymous struct

  /** What an anonymous struct that must not be expanded is cut to. */
  const LITERAL_CUT := Leaf(Recursive, "struct{\U{2026}}")

  /** byte and rune are other names of uint8 and int32. */
  function Canonical(name: string): string {
    if name == "byte" then "uint8" else if name == "rune" then "int32" else name
  }

  function PrimitiveKind(name: string): string {
    if name == "string" then "string"
    else if name in {"int", "int8", "int16", "int32", "int64", "uint", "uint8", "uint16", "uint32", "uint64", "byte", "rune"} then "integer"
    else if name == "float32" || name == "float64" then "number"
    else if name == "bool" then "boolean"
    else ""
  }

  function LeafKind(s: Shape): string {
    match s
    case Builtin(name) => PrimitiveKind(name)
    case KindOnly(kind) => kind
    case _ => ""
  }

  function MergeSameKind(x: Shape, y: Shape): Option<Shape>
    decreases x, 0
  {
    match (x, y)
    case (Container(a, e), Container(b, f)) =>
      if a != b then None
      else if e.None? || f.None? then (if e.None? && f.None? then Some(x) else None)
      else (match Merge(e.value, f.value) case Some(g) => Some(Container(a, Some(g))) case None => None)
    case (Builtin(a), Builtin(b)) => if Canonical(a) == Canonical(b) then Some(x) else None
    case (KindOnly(a), KindOnly(b)) => if a == b then Some(x) else None
    case (Leaf(s, a), Leaf(t, b)) => if s == t && a == b then Some(x) else None
    case (Literal(d, a), Literal(e, b)) => if !d || !e || a == b then Some(x) else None
    case _ => None
  }

  /** One cut where the other was expanded: which comes first is the expansion's doing, not the source's. */
  predicate CutAgainstExtraction(x: Shape, y: Shape) {
    (x == LITERAL_CUT && y.Literal? && y.extracted) || (y == LITERAL_CUT && x.Literal? && x.extracted)
  }

  predicate NoLiteral(s: Shape) {
    !s.Literal? && (s.Container? && s.elem.Some? ==> NoLiteral(s.elem.value))
  }

  predicate NoLiteralIn(s: Option<Shape>) {
    s.Some? ==> NoLiteral(s.value)
  }

  /** Containers by their elements, equal leaves kept, scalars of one OpenAPI kind to that kind alone. */
  function Merge(x: Shape, y: Shape): Option<Shape>
    decreases x, 1
  {
    if CutAgainstExtraction(x, y) then Some(x)
    else if MergeSameKind(x, y).Some? then MergeSameKind(x, y)
    else if LeafKind(x) != "" && LeafKind(x) == LeafKind(y) then Some(KindOnly(LeafKind(x)))
    else None
  }

  // ----- up to spelling

  function Spelled(s: Shape): Shape {
    match s
    case Container(box, elem) => Container(box, if elem.Some? then Some(Spelled(elem.value)) else None)
    case Builtin(name) => Builtin(Canonical(name))
    case _ => s
  }

  function SpelledOption(s: Option<Shape>): Option<Shape> {
    if s.Some? then Some(Spelled(s.value)) else None
  }

  lemma KindIsSpelled(name: string)
    ensures PrimitiveKind(Canonical(name)) == PrimitiveKind(name) && Canonical(Canonical(name)) == Canonical(name)
  {
  }

  /** Merging does not look at the spelling. */
  lemma {:induction false} MergeSpelled(x: Shape, y: Shape)
    ensures Merge(Spelled(x), Spelled(y)) == SpelledOption(Merge(x, y))
    decreases x
  {
    hide PrimitiveKind, Canonical;
    if x.Builtin? {
      KindIsSpelled(x.name);
    }
    if y.Builtin? {
      KindIsSpelled(y.name);
    }
    if x.Container? && y.Container? && x.elem.Some? && y.elem.Some? {
      MergeSpelled(x.elem.value, y.elem.value);
    }
  }

  lemma {:induction false} MergeIdempotent(x: Shape)
    ensures Merge(x, x) == Some(x)
    decreases x
  {
    if x.Container? && x.elem.Some? {
      MergeIdempotent(x.elem.value);
    }
  }

  lemma {:induction false} MergeCommutes(x: Shape, y: Shape)
    requires NoLiteral(x) && NoLiteral(y)
    ensures SpelledOption(Merge(x, y)) == SpelledOption(Merge(y, x))
    decreases x
  {
    if x.Container? && y.Container? && x.elem.Some? && y.elem.Some? {
      MergeCommutes(x.elem.value, y.elem.value);
    }
  }

  /** Merging, once one side may already have failed. */
  function Join(a: Option<Shape>, b: Option<Shape>): Option<Shape> {
    if a.None? || b.None? then None else Merge(a.value, b.value)
  }

  /** Leaves of one spelling are one; scalars of one kind are that kind. */
  lemma LeafMerge(x: Shape, y: Shape)
    requires !x.Container? && !y.Container? && !x.Literal? && !y.Literal?
    ensures Merge(x, y) == if Spelled(x) == Spelled(y) then Some(x)
                           else if LeafKind(x) != "" && LeafKind(x) == LeafKind(y) then Some(KindOnly(LeafKind(x)))
                           else None
    ensures Spelled(x) == Spelled(y) ==> LeafKind(x) == LeafKind(y)
  {
    if x.Builtin? && y.Builtin? {
      KindIsSpelled(x.name);
      KindIsSpelled(y.name);
    }
  }

  lemma KindMerge(kind: string, z: Shape)
    requires !z.Container? && !z.Literal?
    ensures Merge(KindOnly(kind), z).Some? <==> z == KindOnly(kind) || (kind != "" && kind == LeafKind(z))
    ensures Merge(KindOnly(kind), z).Some? ==> Merge(KindOnly(kind), z) == Some(KindOnly(kind))
    ensures Merge(z, KindOnly(kind)).Some? <==> Merge(KindOnly(kind), z).Some?
    ensures Merge(z, KindOnly(kind)).Some? ==> Merge(z, KindOnly(kind)) == Some(KindOnly(kind))
  {
    LeafMerge(KindOnly(kind), z);
    LeafMerge(z, KindOnly(kind));
  }

  lemma LeavesAssociate(x: Shape, y: Shape, z: Shape)
    requires !x.Container? && !y.Container? && !z.Container? && !x.Literal? && !y.Literal? && !z.Literal?
    ensures SpelledOption(Join(Merge(x, y), Some(z))) == SpelledOption(Join(Some(x), Merge(y, z)))
  {
    LeafMerge(x, y);
    LeafMerge(y, z);
    LeafMerge(x, z);
    KindMerge(LeafKind(x), z);
    KindMerge(LeafKind(y), x);
    hide Merge, Spelled, LeafKind;
    assert SpelledOption(Some(x)) == Some(Spelled(x)) && SpelledOption(Some(y)) == Some(Spelled(y));
  }

  lemma ContainerMerge(x: Shape, y: Shape)
    requires x.Container?
    ensures !y.Container? ==> Merge(x, y) == None && Merge(y, x) == None
    ensures y.Container? && (x.box != y.box || x.elem.Some? != y.elem.Some?) ==> Merge(x, y) == None
    ensures y.Container? && x.box == y.box && x.elem.None? && y.elem.None? ==> Merge(x, y) == Some(x)
    ensures y.Container? && x.box == y.box && x.elem.Some? && y.elem.Some? ==>
              Merge(x, y) == match Merge(x.elem.value, y.elem.value) case Some(g) => Some(Container(x.box, Some(g))) case None => None
  {
  }

  lemma {:induction false} MergeAssociates(x: Shape, y: Shape, z: Shape)
    requires NoLiteral(x) && NoLiteral(y) && NoLiteral(z)
    ensures SpelledOption(Join(Merge(x, y), Some(z))) == SpelledOption(Join(Some(x), Merge(y, z)))
    decreases x
  {
    if !x.Container? && !y.Container? && !z.Container? {
      LeavesAssociate(x, y, z);
    } else if x.Container? && y.Container? && z.Container? && x.elem.Some? && y.elem.Some? && z.elem.Some? && x.box == y.box == z.box {
      MergeAssociates(x.elem.value, y.elem.value, z.elem.value);
      ContainersAssociate(x, y, z);
    } else {
      UnlikeAssociate(x, y, z);
    }
  }

  function Boxed(box: Box, s: Option<Shape>): Option<Shape> {
    if s.Some? then Some(Container(box, s)) else None
  }

  lemma BoxedSpelled(box: Box, a: Option<Shape>, b: Option<Shape>)
    requires SpelledOption(a) == SpelledOption(b)
    ensures SpelledOption(Boxed(box, a)) == SpelledOption(Boxed(box, b))
  {
  }

  lemma BoxedMerge(box: Box, a: Shape, b: Shape)
    ensures Merge(Container(box, Some(a)), Container(box, Some(b))) == Boxed(box, Merge(a, b))
  {
  }

  lemma LeftBoxed(box: Box, e: Shape, f: Shape, g: Shape)
    ensures Join(Merge(Container(box, Some(e)), Container(box, Some(f))), Some(Container(box, Some(g))))
         == Boxed(box, Join(Merge(e, f), Some(g)))
  {
    BoxedMerge(box, e, f);
    if Merge(e, f).Some? {
      BoxedMerge(box, Merge(e, f).value, g);
    }
  }

  lemma RightBoxed(box: Box, e: Shape, f: Shape, g: Shape)
    ensures Join(Some(Container(box, Some(e))), Merge(Container(box, Some(f)), Container(box, Some(g))))
         == Boxed(box, Join(Some(e), Merge(f, g)))
  {
    BoxedMerge(box, f, g);
    if Merge(f, g).Some? {
      BoxedMerge(box, e, Merge(f, g).value);
    }
  }

  lemma ContainersAssociate(x: Shape, y: Shape, z: Shape)
    requires x.Container? && y.Container? && z.Container? && x.elem.Some? && y.elem.Some? && z.elem.Some? && x.box == y.box == z.box
    requires var e, f, g := x.elem.value, y.elem.value, z.elem.value;
             SpelledOption(Join(Merge(e, f), Some(g))) == SpelledOption(Join(Some(e), Merge(f, g)))
    ensures SpelledOption(Join(Merge(x, y), Some(z))) == SpelledOption(Join(Some(x), Merge(y, z)))
  {
    var box, e, f, g := x.box, x.elem.value, y.elem.value, z.elem.value;
    hide Merge, Spelled, Join, Boxed, SpelledOption;
    assert x == Container(box, Some(e)) && y == Container(box, Some(f)) && z == Container(box, Some(g));
    LeftBoxed(box, e, f, g);
    RightBoxed(box, e, f, g);
    BoxedSpelled(box, Join(Merge(e, f), Some(g)), Join(Some(e), Merge(f, g)));
  }

  /** Where not all are containers of one box with an element, they merge only if all are that box without one. */
  lemma UnlikeAssociate(x: Shape, y: Shape, z: Shape)
    requires (x.Container? || y.Container? || z.Container?) && NoLiteral(x) && NoLiteral(y) && NoLiteral(z)
    requires !(x.Container? && y.Container? && z.Container? && x.elem.Some? && y.elem.Some? && z.elem.Some? && x.box == y.box == z.box)
    ensures SpelledOption(Join(Merge(x, y), Some(z))) == SpelledOption(Join(Some(x), Merge(y, z)))
  {
    forall a: Shape, b: Shape | a.Container?
      ensures !b.Container? ==> Merge(a, b) == None && Merge(b, a) == None
      ensures b.Container? && (a.box != b.box || a.elem.Some? != b.elem.Some?) ==> Merge(a, b) == None
      ensures b.Container? && a.box == b.box && a.elem.None? && b.elem.None? ==> Merge(a, b) == Some(a)
    {
      ContainerMerge(a, b);
    }
    MergeKeepsForm(x, y);
    MergeKeepsForm(y, z);
    hide Merge;
  }

  lemma MergeKeepsForm(x: Shape, y: Shape)
    requires NoLiteral(x) && NoLiteral(y)
    ensures Merge(x, y).Some? ==>
              var r := Merge(x, y).value;
              r.Container? == x.Container? == y.Container?
              && (r.Container? ==> r.box == x.box == y.box && r.elem.Some? == x.elem.Some? == y.elem.Some?)
  {
    if x.Container? {
      ContainerMerge(x, y);
    } else if y.Container? {
      ContainerMerge(y, x);
    } else {
      LeafMerge(x, y);
    }
  }

  // ----- what a merge says

  /** z says nothing that x does not: it is x up to spelling, or x's kind alone, container by container. */
  predicate IsBelow(x: Shape, z: Shape)
    decreases x
  {
    match (x, z)
    case (Container(a, e), Container(b, f)) => a == b && e.Some? == f.Some? && (e.Some? ==> IsBelow(e.value, f.value))
    case (Builtin(a), Builtin(b)) => Canonical(a) == Canonical(b)
    case (Builtin(_), KindOnly(kind)) => kind != "" && LeafKind(x) == kind
    case (KindOnly(a), KindOnly(b)) => a == b
    case (Leaf(_, _), Leaf(_, _)) => x == z
    case _ => false
  }

  /** Two shapes merge exactly where some shape says nothing either does not, and into the one that says most. */
  lemma {:induction false} MergeIsLeast(x: Shape, y: Shape)
    requires NoLiteral(x) && NoLiteral(y)
    ensures Merge(x, y).Some? ==> IsBelow(x, Merge(x, y).value) && IsBelow(y, Merge(x, y).value)
    ensures forall z :: IsBelow(x, z) && IsBelow(y, z) ==> Merge(x, y).Some? && IsBelow(Merge(x, y).value, z)
    decreases x
  {
    hide PrimitiveKind, Canonical;
    if x.Container? && y.Container? && x.elem.Some? && y.elem.Some? {
      MergeIsLeast(x.elem.value, y.elem.value);
    }
    if x.Builtin? {
      KindIsSpelled(x.name);
    }
    if y.Builtin? {
      KindIsSpelled(y.name);
    }
    forall z | IsBelow(x, z) && IsBelow(y, z) ensures Merge(x, y).Some? && IsBelow(Merge(x, y).value, z) {
      if z.Builtin? {
        KindIsSpelled(z.name);
      }
      if x.Container? && y.Container? && x.elem.Some? && y.elem.Some? {
        assert IsBelow(x.elem.value, z.elem.value) && IsBelow(y.elem.value, z.elem.value);
      }
    }
  }

  // ----- all declarations

  function MergeAll(s: seq<Shape>): Option<Shape>
    requires s != []
  {
    if |s| == 1 then Some(s[0]) else Join(MergeAll(s[..|s| - 1]), Some(s[|s| - 1]))
  }

  predicate Alike(a: Option<Shape>, b: Option<Shape>) {
    SpelledOption(a) == SpelledOption(b)
  }

  lemma JoinAlike(a: Option<Shape>, b: Option<Shape>, c: Option<Shape>, d: Option<Shape>)
    requires Alike(a, b) && Alike(c, d)
    ensures Alike(Join(a, c), Join(b, d))
  {
    if a.Some? && c.Some? {
      MergeSpelled(a.value, c.value);
      MergeSpelled(b.value, d.value);
    }
  }

  lemma {:induction false} MergeNoLiteral(x: Shape, y: Shape)
    requires NoLiteral(x) && NoLiteral(y)
    ensures NoLiteralIn(Merge(x, y))
    decreases x
  {
    if x.Container? && y.Container? && x.elem.Some? && y.elem.Some? {
      MergeNoLiteral(x.elem.value, y.elem.value);
    }
  }

  lemma {:induction false} MergeAllNoLiteral(s: seq<Shape>)
    requires s != [] && forall x <- s :: NoLiteral(x)
    ensures NoLiteralIn(MergeAll(s))
    decreases |s|
  {
    if |s| > 1 {
      MergeAllNoLiteral(s[..|s| - 1]);
      var init := MergeAll(s[..|s| - 1]);
      if init.Some? {
        MergeNoLiteral(init.value, s[|s| - 1]);
      }
    }
  }

  lemma JoinSwaps(a: Option<Shape>, b: Option<Shape>, c: Option<Shape>)
    requires NoLiteralIn(a) && NoLiteralIn(b) && NoLiteralIn(c)
    ensures Alike(Join(Join(a, b), c), Join(Join(a, c), b))
  {
    if a.Some? && b.Some? && c.Some? {
      MergeAssociates(a.value, b.value, c.value);
      MergeAssociates(a.value, c.value, b.value);
      MergeCommutes(b.value, c.value);
      JoinAlike(a, a, Merge(b.value, c.value), Merge(c.value, b.value));
    }
  }

  lemma JoinTurns(a: Option<Shape>, b: Option<Shape>)
    requires NoLiteralIn(a) && NoLiteralIn(b)
    ensures Alike(Join(a, b), Join(b, a))
  {
    if a.Some? && b.Some? {
      MergeCommutes(a.value, b.value);
    }
  }

  lemma OneMerges(x: Shape)
    ensures MergeAll([x]) == Some(x)
  {
  }

  lemma LastJoins(s: seq<Shape>)
    requires |s| > 1
    ensures MergeAll(s) == Join(MergeAll(s[..|s| - 1]), Some(s[|s| - 1]))
  {
  }

  /** Any one declaration may be read last. */
  lemma {:induction false} AnyLast(s: seq<Shape>, i: nat)
    requires |s| > 1 && i < |s| && forall x <- s :: NoLiteral(x)
    ensures Alike(MergeAll(s), Join(MergeAll(s[..i] + s[i + 1..]), Some(s[i])))
    decreases |s|
  {
    hide NoLiteral, Join, MergeAll;
    var n := |s| - 1;
    var init, last := s[..n], Some(s[n]);
    LastJoins(s);
    if i == n {
      assert s[..i] + s[i + 1..] == init;
    } else {
      var without := s[..i] + s[i + 1..];
      if n == 1 {
        assert without == [s[1]] && init == [s[0]];
        OneMerges(s[0]);
        OneMerges(s[1]);
        JoinTurns(Some(s[0]), Some(s[1]));
      } else {
        AnyLast(init, i);
        var rest := init[..i] + init[i + 1..];
        MergeAllNoLiteral(rest);
        assert without[..|without| - 1] == rest && without[|without| - 1] == s[n];
        LastJoins(without);
        JoinAlike(MergeAll(init), Join(MergeAll(rest), Some(s[i])), last, last);
        JoinSwaps(MergeAll(rest), Some(s[i]), last);
      }
    }
  }

  lemma {:induction false} BelowTransitive(x: Shape, y: Shape, z: Shape)
    requires IsBelow(x, y) && IsBelow(y, z)
    ensures IsBelow(x, z)
    decreases x
  {
    hide PrimitiveKind, Canonical;
    if x.Container? && x.elem.Some? {
      BelowTransitive(x.elem.value, y.elem.value, z.elem.value);
    }
    if x.Builtin? && y.Builtin? {
      KindIsSpelled(x.name);
      KindIsSpelled(y.name);
    }
  }

  lemma {:induction false} BelowItself(x: Shape)
    requires NoLiteral(x)
    ensures IsBelow(x, x)
    decreases x
  {
    if x.Container? && x.elem.Some? {
      BelowItself(x.elem.value);
    }
  }

  /** Only spelling is left open. */
  lemma {:induction false} BelowBothWays(x: Shape, z: Shape)
    requires IsBelow(x, z) && IsBelow(z, x)
    ensures Spelled(x) == Spelled(z)
    decreases x
  {
    if x.Container? && x.elem.Some? {
      BelowBothWays(x.elem.value, z.elem.value);
    }
  }

  predicate AllBelow(s: seq<Shape>, z: Shape) {
    forall x <- s :: IsBelow(x, z)
  }

  /** All declarations merge exactly where some shape says nothing any of them does not, and into the one that says most. */
  lemma {:induction false} MergeAllIsLeast(s: seq<Shape>)
    requires s != [] && forall x <- s :: NoLiteral(x)
    ensures MergeAll(s).Some? ==> AllBelow(s, MergeAll(s).value)
    ensures forall z | AllBelow(s, z) :: MergeAll(s).Some? && IsBelow(MergeAll(s).value, z)
    decreases |s|
  {
    hide Merge, MergeAll, IsBelow, NoLiteral;
    var last := s[|s| - 1];
    BelowItself(last);
    if |s| == 1 {
      OneMerges(last);
      assert s == [last];
    } else {
      var init := s[..|s| - 1];
      assert s == init + [last];
      MergeAllIsLeast(init);
      MergeAllNoLiteral(init);
      LastJoins(s);
      if MergeAll(init).Some? {
        LastIsLeast(s, MergeAll(init).value, last);
      }
      forall z | AllBelow(s, z) ensures MergeAll(s).Some? && IsBelow(MergeAll(s).value, z) {
        assert (forall x <- init :: x in s) && last in s;
        assert AllBelow(init, z);
      }
    }
  }

  lemma LastIsLeast(s: seq<Shape>, m: Shape, last: Shape)
    requires |s| > 1 && AllBelow(s[..|s| - 1], m) && last == s[|s| - 1] && NoLiteral(m) && NoLiteral(last)
    ensures Merge(m, last).Some? ==> AllBelow(s, Merge(m, last).value)
    ensures forall z | IsBelow(m, z) && IsBelow(last, z) :: Merge(m, last).Some? && IsBelow(Merge(m, last).value, z)
  {
    hide Merge, IsBelow, NoLiteral;
    MergeIsLeast(m, last);
    var init := s[..|s| - 1];
    assert s == init + [last];
    if Merge(m, last).Some? {
      forall x | x in s ensures IsBelow(x, Merge(m, last).value) {
        if x in init {
          BelowTransitive(x, m, Merge(m, last).value);
        }
      }
    }
  }

  lemma TakeOut(s: seq<Shape>, i: nat)
    requires i < |s|
    ensures multiset(s[..i] + s[i + 1..]) == multiset(s) - multiset{s[i]}
  {
    assert s == s[..i] + [s[i]] + s[i + 1..];
  }

  /** Whether the declarations merge, and into what up to spelling, does not depend on their order. */
  lemma {:induction false} MergeIgnoresOrder(s: seq<Shape>, t: seq<Shape>)
    requires s != [] && multiset(s) == multiset(t) && forall x <- s :: NoLiteral(x)
    ensures t != [] && Alike(MergeAll(s), MergeAll(t))
    decreases |s|
  {
    assert |s| == |multiset(s)| == |multiset(t)| == |t|;
    var n := |s| - 1;
    var last := s[n];
    assert last in multiset(s);
    var i :| 0 <= i < |t| && t[i] == last;
    if n > 0 {
      var rest := t[..i] + t[i + 1..];
      TakeOut(s, n);
      TakeOut(t, i);
      forall x | x in t ensures NoLiteral(x) {
        assert x in multiset(t);
        assert x in multiset(s);
      }
      assert s[..n] + s[n + 1..] == s[..n];
      hide MergeAll, Join, Alike;
      MergeIgnoresOrder(s[..n], rest);
      AnyLast(t, i);
      LastAlike(s, t, i);
    }
  }

  lemma LastAlike(s: seq<Shape>, t: seq<Shape>, i: nat)
    requires |s| > 1 && |t| > 1 && i < |t| && t[i] == s[|s| - 1]
    requires Alike(MergeAll(s[..|s| - 1]), MergeAll(t[..i] + t[i + 1..]))
    requires Alike(MergeAll(t), Join(MergeAll(t[..i] + t[i + 1..]), Some(t[i])))
    ensures Alike(MergeAll(s), MergeAll(t))
  {
    JoinAlike(MergeAll(s[..|s| - 1]), MergeAll(t[..i] + t[i + 1..]), Some(t[i]), Some(t[i]));
  }

  method MergeDecls(results: seq<Shape>) returns (merged: Option<Shape>)
    requires results != []
    ensures merged == MergeAll(results)
    ensures (forall x <- results :: NoLiteral(x)) ==>
              forall t | multiset(t) == multiset(results) && t != [] :: Alike(merged, MergeAll(t))
  {
    merged := Some(results[0]);
    var i := 1;
    assert results[..1] == [results[0]];
    while i < |results|
      invariant 1 <= i <= |results| && merged == MergeAll(results[..i])
    {
      assert results[..i + 1][..i] == results[..i];
      if merged.Some? {
        merged := Merge(merged.value, results[i]);
      }
      i := i + 1;
    }
    assert results[..i] == results;
    forall t | (forall x <- results :: NoLiteral(x)) && multiset(t) == multiset(results) && t != [] ensures Alike(merged, MergeAll(t)) {
      MergeIgnoresOrder(results, t);
    }
  }
}
