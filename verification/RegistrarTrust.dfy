/**
 The analysis with some variables given up from the start, as if a function
 literal had captured them: it says the same of every other variable, as long
 as none is built from one given up.
 */
module RegistrarTrust {
  import opened Wrappers
  import opened RegistrarSyntax
  import opened RegistrarTracker
  import opened RegistrarStructure
  import opened RegistrarInvariants
  import opened RegistrarClaims
  import opened RegistrarRefinement

  /** The variable a report that is no registration is about. */
  function Affects(e: Entry): Key {
    match e
    case Registration(_, key, _) => key
    case UnknownParent(_, _, target) => target
    case LostWrite(_, key) => key
  }

  /** Where the analysis knows nothing, only variables of z are written. */
  predicate HazardsWithin(log: seq<Entry>, z: set<Key>) {
    forall e <- log :: e.Registration? || Affects(e) in z
  }

  /** No variable outside z is ever assigned what is built from one of z. */
  predicate Independent(n: Node, z: set<Key>)
    decreases n, 1
  {
    match n
    case Call(_, _, _, inner) => IndependentIn(inner, z)
    case Assign(_, _, _, targets, inner) => (forall x <- targets :: x.key in z || ReadsOf(x.rhs) !! z) && IndependentIn(inner, z)
    case Scope(_, _, _, _, header, body) => IndependentIn(header, z) && IndependentIn(body, z)
  }

  predicate IndependentIn(ns: Nodes, z: set<Key>)
    decreases ns, 0
  {
    ns.Cons? ==> Independent(ns.head, z) && IndependentIn(ns.tail, z)
  }

  /** u is t with z given up. */
  predicate Aside(t: Tracker, u: Tracker, z: set<Key>) {
    u.captured == t.captured + z && SameStack(t.top, u.top, z)
  }

  /** What the second log reports, the first does, with the same prefix outside z; z has no hazards in it. */
  predicate LogAside(a: seq<Entry>, b: seq<Entry>, z: set<Key>) {
    forall e <- b ::
      if e.Registration? then exists x <- a :: Alike(x, e, z)
      else e in a && Affects(e) !in z
  }

  predicate Alike(x: Entry, e: Entry, z: set<Key>) {
    && x.Registration? && e.Registration? && x.pos == e.pos && x.key == e.key
    && (e.key !in z ==> x.prefix == e.prefix)
  }

  lemma LogsThen(a: seq<Entry>, b: seq<Entry>, c: seq<Entry>, d: seq<Entry>, z: set<Key>)
    requires LogAside(a, b, z) && LogAside(c, d, z)
    ensures LogAside(a + c, b + d, z)
  {
    forall e | e in b + d
      ensures if e.Registration? then exists x <- a + c :: Alike(x, e, z) else e in a + c && Affects(e) !in z
    {
      if e.Registration? {
        if e in b {
          var x :| x in a && Alike(x, e, z);
          assert x in a + c;
        } else {
          var x :| x in c && Alike(x, e, z);
          assert x in a + c;
        }
      }
    }
  }

  // ----- reading

  lemma AsideLookup(ws: set<Site>, t: Tracker, u: Tracker, z: set<Key>, k: Key)
    requires Aside(t, u, z)
    ensures k !in z ==> Lookup(ws, t, k) == Lookup(ws, u, k)
    ensures Lookup(ws, t, k).Some? == Lookup(ws, u, k).Some?
  {
    if k !in z {
      SameLookupFrom(ws, t.top, u.top, z, k, k in t.captured);
    }
    SameKnown(t.top, u.top, z, k);
    LookupKnown(ws, t.top, k, k in t.captured);
    LookupKnown(ws, u.top, k, k in u.captured);
  }

  lemma {:induction false} SameKnown(s: Stack, r: Stack, z: set<Key>, k: Key)
    requires SameStack(s, r, z)
    ensures Known(s, k) == Known(r, k)
    decreases s
  {
    if s.Push? {
      SameKnown(s.parent, r.parent, z, k);
    }
  }

  lemma AsideRhs(ws: set<Site>, t: Tracker, u: Tracker, z: set<Key>, x: Target)
    requires Aside(t, u, z)
    ensures ReadsOf(x.rhs) !! z ==> RhsBinding(ws, t, x.rhs) == RhsBinding(ws, u, x.rhs)
    ensures Recorded(ws, t, x) == Recorded(ws, u, x)
  {
    AsideLookup(ws, t, u, z, x.key);
    match x.rhs
    case Group(parent, _) => AsideLookup(ws, t, u, z, parent);
    case Copy(source) => AsideLookup(ws, t, u, z, source);
    case Opaque =>
  }

  // ----- writing

  lemma SameSetIn(s: Stack, r: Stack, z: set<Key>, k: Key, v: Prefix, w: Prefix)
    requires SameStack(s, r, z) && (k !in z ==> v == w)
    ensures SameStack(SetIn(s, k, v), SetIn(r, k, w), z)
  {
    assert Blank(s.frame) == Blank(r.frame);
    if s.Push? {
      assert SameStack(s.parent, r.parent, z);
    }
  }

  lemma {:induction false} AsideTargets(ws: set<Site>, before: Tracker, other: Tracker, t: Tracker, u: Tracker, z: set<Key>, pos: Pos, targets: seq<Target>)
    requires Aside(before, other, z) && Aside(t, u, z) && forall x <- targets :: x.key in z || ReadsOf(x.rhs) !! z
    ensures Aside(WriteTargets(ws, before, t, pos, targets), WriteTargets(ws, other, u, pos, targets), z)
    decreases |targets|
  {
    if targets != [] {
      var x := targets[0];
      AsideRhs(ws, before, other, z, x);
      SameOutline(t.top, u.top, z);
      WrittenByOutline(t.top, u.top, x.key, pos, RhsBinding(ws, before, x.rhs).value);
      SameSetIn(t.top, u.top, z, x.key, WrittenValue(t.top, x.key, pos, RhsBinding(ws, before, x.rhs).value),
                WrittenValue(u.top, x.key, pos, RhsBinding(ws, other, x.rhs).value));
      assert forall y <- targets[1..] :: y in targets;
      AsideTargets(ws, before, other, WriteTarget(ws, before, t, pos, x), WriteTarget(ws, other, u, pos, x), z, pos, targets[1..]);
    }
  }

  lemma {:induction false} AsideHazards(ws: set<Site>, t: Tracker, u: Tracker, z: set<Key>, pos: Pos, targets: seq<Target>)
    requires Aside(t, u, z)
    ensures LogAside(Hazards(ws, t, pos, targets), Hazards(ws, u, pos, targets), z)
    decreases |targets|
  {
    if targets != [] {
      var x := targets[0];
      AsideRhs(ws, t, u, z, x);
      SameOutline(t.top, u.top, z);
      CrossesByOutline(t.top, u.top, x.key);
      SameTouched(t.top, u.top, z, x.key);
      if x.rhs.Group? {
        AsideLookup(ws, t, u, z, x.rhs.parent);
      }
      hide Lookup, Recorded, CrossesLiteral, Touched;
      HazardsAside(ws, t, u, z, pos, x);
      AsideHazards(ws, t, u, z, pos, targets[1..]);
      LogsThen(TargetHazards(ws, t, pos, x), TargetHazards(ws, u, pos, x),
               Hazards(ws, t, pos, targets[1..]), Hazards(ws, u, pos, targets[1..]), z);
    }
  }

  lemma HazardsAside(ws: set<Site>, t: Tracker, u: Tracker, z: set<Key>, pos: Pos, x: Target)
    requires u.captured == t.captured + z && Recorded(ws, t, x) == Recorded(ws, u, x)
    requires CrossesLiteral(t.top, x.key) == CrossesLiteral(u.top, x.key) && Touched(t.top, x.key) == Touched(u.top, x.key)
    requires x.rhs.Group? ==> Lookup(ws, t, x.rhs.parent).Some? == Lookup(ws, u, x.rhs.parent).Some?
    ensures LogAside(TargetHazards(ws, t, pos, x), TargetHazards(ws, u, pos, x), z)
  {
    hide Lookup, Recorded, CrossesLiteral, Touched;
    var a, b := TargetHazards(ws, t, pos, x), TargetHazards(ws, u, pos, x);
    if x.key in z {
      assert b == [];
    } else {
      assert a == b;
    }
  }

  // ----- scopes

  lemma AsideEnter(t: Tracker, u: Tracker, z: set<Key>, n: Node)
    requires Aside(t, u, z) && n.Scope?
    ensures Aside(Enter(t, n), Enter(u, n), z)
  {
    assert Blank(t.top.frame) == Blank(u.top.frame);
  }

  lemma AsideLeave(t: Tracker, u: Tracker, z: set<Key>)
    requires Aside(t, u, z) && t.top.Push?
    ensures Aside(Leave(t), Leave(u), z)
  {
    assert Blank(t.top.frame) == Blank(u.top.frame);
    assert SameStack(t.top.parent, u.top.parent, z);
    assert Blank(t.top.parent.frame) == Blank(u.top.parent.frame);
    assert WrittenKeys(t.top.frame) == WrittenKeys(u.top.frame);
    assert Outward(t.top.frame) == Outward(u.top.frame);
    assert SameFrame(LeaveInto(t.top.parent.frame, t.top.frame), LeaveInto(u.top.parent.frame, u.top.frame), z);
  }

  // ----- the walk

  lemma {:induction false} WalkAside(ws: set<Site>, n: Node, t: Tracker, u: Tracker, z: set<Key>)
    requires Aside(t, u, z) && Independent(n, z)
    ensures Aside(Walk(ws, n, t).t, Walk(ws, n, u).t, z)
    ensures LogAside(Walk(ws, n, t).log, Walk(ws, n, u).log, z)
    decreases n, 1
  {
    match n
    case Call(pos, _, registrar, inner) =>
      WalkInAside(ws, inner, t, u, z);
      if registrar.Some? {
        var k := registrar.value;
        AsideLookup(ws, t, u, z, k);
        var a, b := [Registration(pos, k, Lookup(ws, t, k))], [Registration(pos, k, Lookup(ws, u, k))];
        assert Alike(a[0], b[0], z) && a[0] in a;
        LogsThen(a, b, WalkIn(ws, inner, t).log, WalkIn(ws, inner, u).log, z);
      } else {
        assert [] + WalkIn(ws, inner, t).log == WalkIn(ws, inner, t).log && [] + WalkIn(ws, inner, u).log == WalkIn(ws, inner, u).log;
      }
    case Assign(pos, _, _, targets, inner) =>
      WalkInAside(ws, inner, t, u, z);
      AsideTargets(ws, t, u, WalkIn(ws, inner, t).t, WalkIn(ws, inner, u).t, z, pos, targets);
      AsideHazards(ws, t, u, z, pos, targets);
      LogsThen(Hazards(ws, t, pos, targets), Hazards(ws, u, pos, targets), WalkIn(ws, inner, t).log, WalkIn(ws, inner, u).log, z);
    case Scope(_, _, _, _, header, body) =>
      AsideEnter(t, u, z, n);
      WalkInAside(ws, header, Enter(t, n), Enter(u, n), z);
      var h, g := WalkIn(ws, header, Enter(t, n)), WalkIn(ws, header, Enter(u, n));
      WalkInAside(ws, body, h.t, g.t, z);
      AsideLeave(WalkIn(ws, body, h.t).t, WalkIn(ws, body, g.t).t, z);
      LogsThen(h.log, g.log, WalkIn(ws, body, h.t).log, WalkIn(ws, body, g.t).log, z);
  }

  lemma {:induction false} WalkInAside(ws: set<Site>, ns: Nodes, t: Tracker, u: Tracker, z: set<Key>)
    requires Aside(t, u, z) && IndependentIn(ns, z)
    ensures Aside(WalkIn(ws, ns, t).t, WalkIn(ws, ns, u).t, z)
    ensures LogAside(WalkIn(ws, ns, t).log, WalkIn(ws, ns, u).log, z)
    decreases ns, 0
  {
    if ns.Cons? {
      WalkAside(ws, ns.head, t, u, z);
      var w, v := Walk(ws, ns.head, t), Walk(ws, ns.head, u);
      WalkInAside(ws, ns.tail, w.t, v.t, z);
      LogsThen(w.log, v.log, WalkIn(ws, ns.tail, w.t).log, WalkIn(ws, ns.tail, v.t).log, z);
    }
  }
}
