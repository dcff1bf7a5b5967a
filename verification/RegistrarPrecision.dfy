/**
 The analysis gives up only where it must look past straight-line code: a
 variable written only there, and only with groups and copies of such
 variables, is resolved, and exactly, whatever else the code does.
 */
module RegistrarPrecision {
  import opened Wrappers
  import opened RegistrarSyntax
  import opened RegistrarTracker
  import opened RegistrarStructure
  import opened RegistrarInvariants
  import opened RegistrarNotes
  import opened RegistrarSemantics
  import opened RegistrarWorld
  import opened RegistrarClaims
  import opened RegistrarSoundness
  import opened RegistrarReady
  import opened RegistrarRuns
  import opened RegistrarTrust
  import opened RegistrarTheorem
  import opened RegistrarCertain

  predicate IsTraced(x: Target, traced: set<Key>) {
    (x.rhs.Copy? || (x.rhs.Group? && x.rhs.arg.Some?)) && ReadsOf(x.rhs) <= traced
  }

  /** Straight-line code writes the traced variables from traced ones; all else, branches, loops and closures too, writes none of them. */
  predicate Straight(n: Node, traced: set<Key>)
    decreases n, 1
  {
    match n
    case Call(_, _, _, inner) => StraightIn(inner, traced)
    case Assign(_, _, _, targets, inner) => StraightIn(inner, traced) && forall x <- targets :: x.key in traced ==> IsTraced(x, traced)
    case Scope(kind, _, _, _, header, body) => if kind.BlockK? then header.Nil? && StraightIn(body, traced) else Writes(n) !! traced
  }

  predicate StraightIn(ns: Nodes, traced: set<Key>)
    decreases ns, 0
  {
    ns.Cons? ==> Straight(ns.head, traced) && StraightIn(ns.tail, traced)
  }

  /** A traced variable is read, in straight-line code, only once it is bound. */
  predicate Definite(n: Node, traced: set<Key>, bound: set<Key>)
    decreases n, 1
  {
    match n
    case Call(_, _, registrar, inner) =>
      (registrar.Some? && registrar.value in traced ==> registrar.value in bound) && DefiniteIn(inner, traced, bound)
    case Assign(_, _, _, targets, inner) =>
      (forall x <- targets :: x.key in traced ==> ReadsOf(x.rhs) <= bound) && DefiniteIn(inner, traced, bound)
    case Scope(kind, _, _, _, _, body) => kind.BlockK? ==> DefiniteIn(body, traced, bound)
  }

  predicate DefiniteIn(ns: Nodes, traced: set<Key>, bound: set<Key>)
    decreases ns, 0
  {
    ns.Cons? ==> Definite(ns.head, traced, bound) && DefiniteIn(ns.tail, traced, bound + Writes(ns.head) * traced)
  }

  /** Only blocks are open. */
  predicate InBlocks(s: Stack) {
    (s.frame.kind.BlockK? || s.frame.kind.RootK?) && (s.Push? ==> InBlocks(s.parent))
  }

  /** No function literal has written a traced variable, and those bound are resolved. */
  predicate Knows(ws: set<Site>, t: Tracker, avail: set<Key>, traced: set<Key>, bound: set<Key>) {
    InBlocks(t.top) && t.captured !! traced && bound <= traced && forall k | k in bound && k in avail :: Claims(ws, t, k)
  }

  /** No hazard is about a traced variable. */
  predicate SeesAll(log: seq<Entry>, traced: set<Key>) {
    forall e <- log :: e.Registration? || Affects(e) !in traced
  }

  // ----- blocks

  lemma {:induction false} BlocksByOutline(s: Stack, r: Stack)
    requires Outline(s) == Outline(r)
    ensures InBlocks(s) == InBlocks(r)
    decreases s
  {
    assert Blank(s.frame) == Blank(r.frame);
    if s.Push? {
      BlocksByOutline(s.parent, r.parent);
    }
  }

  lemma {:induction false} BlocksCarryNothing(s: Stack, k: Key, pos: Pos)
    requires InBlocks(s)
    ensures !CarriedAcrossRuns(s, k, pos) && !CrossesLiteral(s, k)
    decreases s
  {
    if !Declares(s.frame, k) && s.Push? {
      BlocksCarryNothing(s.parent, k, pos);
    }
  }

  // ----- one target

  /** A traced write in a block is what its variable reads as afterwards, and no write changes another. */
  lemma StraightTarget(ws: set<Site>, before: Tracker, t: Tracker, pos: Pos, x: Target, avail: set<Key>, traced: set<Key>, bound: set<Key>)
    requires Knows(ws, before, avail, traced, bound) && InBlocks(t.top) && t.captured !! traced
    requires x.key in traced ==> IsTraced(x, traced) && ReadsOf(x.rhs) <= bound * avail
    ensures var r := WriteTarget(ws, before, t, pos, x);
            && r.captured == t.captured && InBlocks(r.top)
            && (x.key in traced ==> Claims(ws, r, x.key))
            && forall k | k in traced && k != x.key :: Lookup(ws, r, k) == Lookup(ws, t, k)
    ensures SeesAll(TargetHazards(ws, before, pos, x), traced)
  {
    var r := WriteTarget(ws, before, t, pos, x);
    BlocksCarryNothing(t.top, x.key, pos);
    BlocksCarryNothing(before.top, x.key, pos);
    BlocksByOutline(t.top, r.top);
    var v := RhsBinding(ws, before, x.rhs).value;
    if x.key in traced {
      var read := if x.rhs.Group? then x.rhs.parent else x.rhs.source;
      assert read in ReadsOf(x.rhs) && Claims(ws, before, read);
    }
    if Recorded(ws, before, x) {
      assert r.top == OnTop(t.top, WithValue(t.top.frame, x.key, v));
      forall k | k in traced && k != x.key ensures Lookup(ws, r, k) == Lookup(ws, t, k) {
        TopLookup(ws, t.top, WithValue(t.top.frame, x.key, v), k, false);
      }
    }
  }

  lemma {:induction false} StraightTargets(ws: set<Site>, before: Tracker, t: Tracker, pos: Pos, targets: seq<Target>, avail: set<Key>, traced: set<Key>, bound: set<Key>)
    requires Knows(ws, before, avail, traced, bound) && InBlocks(t.top) && t.captured !! traced
    requires forall x <- targets :: x.key in traced ==> IsTraced(x, traced) && ReadsOf(x.rhs) <= bound * avail
    ensures var r := WriteTargets(ws, before, t, pos, targets);
            && r.captured == t.captured && InBlocks(r.top)
            && forall k | k in traced && (Claims(ws, t, k) || k in TargetKeys(targets)) :: Claims(ws, r, k)
    ensures SeesAll(Hazards(ws, before, pos, targets), traced)
    decreases |targets|
  {
    if targets != [] {
      hide Lookup, Knows, IsTraced, WriteTarget, TargetHazards, InBlocks;
      var x, r := targets[0], WriteTarget(ws, before, t, pos, targets[0]);
      StraightTarget(ws, before, t, pos, x, avail, traced, bound);
      assert forall y <- targets[1..] :: y in targets;
      StraightTargets(ws, before, r, pos, targets[1..], avail, traced, bound);
      assert TargetKeys(targets) == {x.key} + TargetKeys(targets[1..]);
    }
  }

  /** What a node writes is declared by its end. */
  lemma {:induction false} WritesEarly(n: Node, avail: set<Key>)
    requires WellFormed(n, avail)
    ensures forall k <- Writes(n) :: k.from <= n.end
    decreases n, 1
  {
    match n
    case Call(pos, end, registrar, inner) => WritesInEarly(inner, if registrar.Some? then pos + 1 else pos, end, avail);
    case Assign(pos, end, _, _, inner) => WritesInEarly(inner, pos, end, avail);
    case Scope(_, pos, end, _, header, body) =>
      WritesInEarly(header, pos, end, avail);
      WritesInEarly(body, After(header, pos), end, InnerScope(n, avail));
  }

  lemma {:induction false} WritesInEarly(ns: Nodes, lo: Pos, hi: Pos, avail: set<Key>)
    requires WellFormedIn(ns, lo, hi, avail)
    ensures forall k <- WritesIn(ns) :: k.from <= hi
    decreases ns, 0
  {
    if ns.Cons? {
      WritesEarly(ns.head, avail);
      WritesInEarly(ns.tail, ns.head.end, hi, avail + Declared(ns.head));
    }
  }

  // ----- code that is not straight

  /** A hazard is about a variable its code writes. */
  lemma {:induction false} HazardsAreWrites(ws: set<Site>, n: Node, t: Tracker)
    ensures forall e <- Walk(ws, n, t).log :: !e.Registration? ==> Affects(e) in Writes(n)
    decreases n, 1
  {
    match n
    case Call(_, _, _, inner) => HazardsAreWritesIn(ws, inner, t);
    case Assign(pos, _, _, targets, inner) =>
      HazardsAreWritesIn(ws, inner, t);
      TargetHazardsAreWrites(ws, t, pos, targets);
    case Scope(_, _, _, _, header, body) =>
      HazardsAreWritesIn(ws, header, Enter(t, n));
      HazardsAreWritesIn(ws, body, HeaderWalked(ws, n, t));
  }

  lemma {:induction false} TargetHazardsAreWrites(ws: set<Site>, t: Tracker, pos: Pos, targets: seq<Target>)
    ensures forall e <- Hazards(ws, t, pos, targets) :: !e.Registration? && Affects(e) in TargetKeys(targets)
    decreases |targets|
  {
    if targets != [] {
      TargetHazardsAreWrites(ws, t, pos, targets[1..]);
      assert TargetKeys(targets) == {targets[0].key} + TargetKeys(targets[1..]);
    }
  }

  lemma {:induction false} HazardsAreWritesIn(ws: set<Site>, ns: Nodes, t: Tracker)
    ensures forall e <- WalkIn(ws, ns, t).log :: !e.Registration? ==> Affects(e) in WritesIn(ns)
    decreases ns, 0
  {
    if ns.Cons? {
      HazardsAreWrites(ws, ns.head, t);
      HazardsAreWritesIn(ws, ns.tail, Walk(ws, ns.head, t).t);
    }
  }

  /** Code that writes no traced variable leaves all of them as they were. */
  lemma OtherKeeps(ws: set<Site>, n: Node, t: Tracker, avail: set<Key>, traced: set<Key>, bound: set<Key>)
    requires n.Scope? && Writes(n) !! traced && WellFormed(n, avail) && Fits(t.top.frame.kind, n) && Sane(ws, t.top, avail)
    requires Knows(ws, t, avail, traced, bound)
    ensures SeesAll(Walk(ws, n, t).log, traced)
    ensures Knows(ws, Walk(ws, n, t).t, avail, traced, bound + Writes(n) * traced)
  {
    var r := Walk(ws, n, t).t;
    WalkKeeps(ws, n, t, avail);
    HazardsAreWrites(ws, n, t);
    BlocksByOutline(t.top, r.top);
    assert Writes(n) * traced == {};
    hide Walk, Writes, WellFormed, Sane, Lookup;
    forall k | k in bound && k in avail ensures Claims(ws, r, k) {
      UnwrittenKeepsBinding(ws, t, r, Writes(n), k);
    }
  }

  // ----- straight-line code

  lemma {:induction false} StraightAssign(ws: set<Site>, n: Node, t: Tracker, avail: set<Key>, traced: set<Key>, bound: set<Key>)
    requires n.Assign? && Straight(n, traced) && WellFormed(n, avail) && Definite(n, traced, bound) && Sane(ws, t.top, avail)
    requires Sites(n) <= ws && t.top.frame.kind.BlockK? && (forall k <- bound :: k.from <= n.pos)
    requires Knows(ws, t, avail, traced, bound)
    ensures SeesAll(Walk(ws, n, t).log, traced)
    ensures Knows(ws, Walk(ws, n, t).t, avail + Declared(n), traced, bound + Writes(n) * traced)
    decreases n, 0
  {
    ExpressionsFit(t.top.frame.kind, n.inner);
    ExpressionsDeclareNothing(n.inner);
    StraightWalkIn(ws, n.inner, t, n.pos, n.end, avail, traced, bound);
    var w := WalkIn(ws, n.inner, t);
    assert avail + DeclaredIn(n.inner) == avail;
    forall x | x in n.targets && x.key in traced ensures IsTraced(x, traced) && ReadsOf(x.rhs) <= bound * avail {
      assert forall k <- ReadsOf(x.rhs) :: k in TargetReads(n.targets);
    }
    StraightTargets(ws, t, w.t, n.pos, n.targets, avail, traced, bound);
    var r := Walk(ws, n, t).t;
    ExpressionsWriteNone(n.inner, n.pos, n.end, avail, traced);
    assert Writes(n) * traced == TargetKeys(n.targets) * traced;
    hide WellFormed, WellFormedIn, Sites, Walk, WalkIn, WriteTargets, Straight, StraightIn, Definite, DefiniteIn, Lookup, Sane;
    forall k | k in bound + Writes(n) * traced && k in avail + Declared(n) ensures Claims(ws, r, k) {
      assert k in Declared(n) ==> k.from == n.end;
    }
  }

  lemma {:induction false} ExpressionsWriteNone(ns: Nodes, lo: Pos, hi: Pos, avail: set<Key>, traced: set<Key>)
    requires AreExpressions(ns) && StraightIn(ns, traced) && WellFormedIn(ns, lo, hi, avail)
    ensures WritesIn(ns) !! traced
    decreases ns
  {
    if ns.Cons? {
      var n := ns.head;
      if n.Call? {
        ExpressionsWriteNone(n.inner, if n.registrar.Some? then n.pos + 1 else n.pos, n.end, avail, traced);
      }
      ExpressionsWriteNone(ns.tail, n.end, hi, avail + Declared(n), traced);
    }
  }

  /** Straight-line code resolves every registration on a bound variable, and knows what it has bound. */
  lemma {:induction false} StraightWalk(ws: set<Site>, n: Node, t: Tracker, avail: set<Key>, traced: set<Key>, bound: set<Key>)
    requires Straight(n, traced) && WellFormed(n, avail) && Definite(n, traced, bound) && (forall k <- bound :: k.from <= n.pos)
    requires Sites(n) <= ws && Fits(t.top.frame.kind, n) && Sane(ws, t.top, avail) && t.top.frame.kind.BlockK?
    requires forall k <- Declared(n) :: Declares(t.top.frame, k)
    requires Knows(ws, t, avail, traced, bound)
    ensures SeesAll(Walk(ws, n, t).log, traced)
    ensures Knows(ws, Walk(ws, n, t).t, avail + Declared(n), traced, bound + Writes(n) * traced)
    decreases n, 1
  {
    match n
    case Call(pos, end, registrar, inner) =>
      var lo := if registrar.Some? then pos + 1 else pos;
      ExpressionsFit(t.top.frame.kind, inner);
      ExpressionsDeclareNothing(inner);
      StraightWalkIn(ws, inner, t, lo, end, avail, traced, bound);
      assert avail + Declared(n) == avail && avail + DeclaredIn(inner) == avail;
    case Assign(_, _, _, _, _) =>
      StraightAssign(ws, n, t, avail, traced, bound);
    case Scope(kind, _, _, _, _, _) =>
      assert avail + Declared(n) == avail;
      if kind.BlockK? {
        StraightBlock(ws, n, t, avail, traced, bound);
      } else {
        OtherKeeps(ws, n, t, avail, traced, bound);
      }
  }

  /** A bare block keeps what it resolved. */
  lemma {:induction false} StraightBlock(ws: set<Site>, n: Node, t: Tracker, avail: set<Key>, traced: set<Key>, bound: set<Key>)
    requires n.Scope? && n.kind.BlockK? && Straight(n, traced) && WellFormed(n, avail) && Definite(n, traced, bound)
    requires Sites(n) <= ws && Sane(ws, t.top, avail) && t.top.frame.kind.BlockK? && (forall k <- bound :: k.from <= n.pos)
    requires Knows(ws, t, avail, traced, bound)
    ensures SeesAll(Walk(ws, n, t).log, traced)
    ensures Knows(ws, Walk(ws, n, t).t, avail, traced, bound + Writes(n) * traced)
    decreases n, 0
  {
    var e := Enter(t, n);
    PartsFit(n);
    ScopeDeclares(n, avail);
    EnterKeepsSane(ws, t, n, avail);
    assert InnerScope(n, avail) == avail && WalkIn(ws, n.header, e) == Walked(e, []);
    EnterKnows(ws, n, t, avail, traced, bound);
    StraightWalkIn(ws, n.body, e, n.pos, n.end, avail, traced, bound);
    var w := WalkIn(ws, n.body, e);
    assert Walk(ws, n, t).log == [] + w.log == w.log;
    assert Placed(ws, n, t, avail);
    hide Placed, Sane, Straight, StraightIn, Definite, DefiniteIn, WellFormed, WellFormedIn, Sites, Walk, WalkIn, Writes, WritesIn;
    LeaveKnows(ws, n, t, avail, traced, bound);
  }

  lemma LeaveKnows(ws: set<Site>, n: Node, t: Tracker, avail: set<Key>, traced: set<Key>, bound: set<Key>)
    requires n.Scope? && n.kind.BlockK? && n.header.Nil? && t.top.frame.kind.BlockK? && Placed(ws, n, t, avail)
    requires Knows(ws, t, avail, traced, bound)
    requires Knows(ws, WalkIn(ws, n.body, Enter(t, n)).t, avail + DeclaredIn(n.body), traced, bound + WritesIn(n.body) * traced)
    ensures Knows(ws, Walk(ws, n, t).t, avail, traced, bound + Writes(n) * traced)
  {
    var r := Walk(ws, n, t).t;
    assert HeaderWalked(ws, n, t) == Enter(t, n);
    ScopeSteps(ws, n, t, avail);
    assert r == Leave(BodyWalked(ws, n, t)) && BodyWalked(ws, n, t).top.frame.kind.BlockK?;
    assert Outline(r.top) == Outline(t.top) && Writes(n) == {} + WritesIn(n.body) == WritesIn(n.body);
    BlocksByOutline(r.top, t.top);
    hide Placed, Walk, WalkIn;
    forall k | k in bound + Writes(n) * traced && k in avail ensures Claims(ws, r, k) {
      CarryClaims(ws, n, t, avail, k);
    }
  }

  lemma EnterKnows(ws: set<Site>, n: Node, t: Tracker, avail: set<Key>, traced: set<Key>, bound: set<Key>)
    requires n.Scope? && n.kind.BlockK? && Knows(ws, t, avail, traced, bound) && Sane(ws, t.top, avail)
    ensures Knows(ws, Enter(t, n), avail, traced, bound)
  {
    var e, f := Enter(t, n), t.top.frame;
    assert f.fallthroughWrites == {};
    assert e.top.frame.values == map[];
    assert f.(fallthroughWrites := {}) == f && e.top.parent == t.top;
    forall k | k in bound && k in avail ensures Claims(ws, e, k) {
      assert Lookup(ws, e, k) == Lookup(ws, t, k);
    }
  }

  lemma {:induction false} StraightWalkIn(ws: set<Site>, ns: Nodes, t: Tracker, lo: Pos, hi: Pos, avail: set<Key>, traced: set<Key>, bound: set<Key>)
    requires StraightIn(ns, traced) && WellFormedIn(ns, lo, hi, avail) && DefiniteIn(ns, traced, bound) && (forall k <- bound :: k.from <= lo)
    requires SitesIn(ns) <= ws && FitIn(t.top.frame.kind, ns) && Sane(ws, t.top, avail) && t.top.frame.kind.BlockK?
    requires forall k <- DeclaredIn(ns) :: Declares(t.top.frame, k)
    requires Knows(ws, t, avail, traced, bound)
    ensures SeesAll(WalkIn(ws, ns, t).log, traced)
    ensures Knows(ws, WalkIn(ws, ns, t).t, avail + DeclaredIn(ns), traced, bound + WritesIn(ns) * traced)
    decreases ns, 0
  {
    if ns.Cons? {
      var head, w := ns.head, Walk(ws, ns.head, t);
      var next := avail + Declared(head);
      StraightWalk(ws, head, t, avail, traced, bound);
      WalkKeeps(ws, head, t, avail);
      assert Blank(t.top.frame) == Blank(w.t.top.frame);
      assert forall k <- DeclaredIn(ns.tail) :: k in DeclaredIn(ns);
      WritesEarly(head, avail);
      StraightWalkIn(ws, ns.tail, w.t, head.end, hi, next, traced, bound + Writes(head) * traced);
      assert bound + WritesIn(ns) * traced == bound + Writes(head) * traced + WritesIn(ns.tail) * traced;
      assert avail + DeclaredIn(ns) == next + DeclaredIn(ns.tail);
    }
  }

  // ----- whole functions

  /** The traced variables a caller binds are handed what it said. */
  predicate StartsBound(params: seq<Key>, seeds: map<Key, Prefix>, traced: set<Key>) {
    forall k <- seeds :: k in traced ==> seeds[k].resolved
  }

  // ----- registrations at any depth

  /** The variables written where literal n may still be called, or later. */
  function Late(ws: set<Site>, n: Node): set<Key> {
    set s | s in ws && n.pos <= s.at :: s.key
  }

  /**
   Where a bound variable is registered on, straight-line code or not: in
   branches and loops as well, and in function literals created once the
   variable has its last value.
   */
  function Spots(ws: set<Site>, n: Node, traced: set<Key>, bound: set<Key>): set<Pos>
    decreases n, 1
  {
    match n
    case Call(pos, _, registrar, inner) => (if registrar.Some? && registrar.value in bound then {pos} else {}) + SpotsIn(ws, inner, traced, bound)
    case Assign(_, _, _, _, inner) => SpotsIn(ws, inner, traced, bound)
    case Scope(kind, _, _, _, header, body) =>
      var inside := if kind.LitK? then bound - Late(ws, n) else bound;
      SpotsIn(ws, header, traced, inside) + SpotsIn(ws, body, traced, inside)
  }

  function SpotsIn(ws: set<Site>, ns: Nodes, traced: set<Key>, bound: set<Key>): set<Pos>
    decreases ns, 0
  {
    if ns.Nil? then {} else Spots(ws, ns.head, traced, bound) + SpotsIn(ws, ns.tail, traced, bound + Writes(ns.head) * traced)
  }

  /** No statement ends just where a loop begins. */
  predicate Spaced(ws: set<Site>, n: Node)
    decreases n, 1
  {
    match n
    case Call(_, _, _, inner) => SpacedIn(ws, inner)
    case Assign(_, _, _, _, inner) => SpacedIn(ws, inner)
    case Scope(kind, pos, _, _, header, body) => (IsLoop(kind) ==> forall s <- ws :: s.at != pos) && SpacedIn(ws, header) && SpacedIn(ws, body)
  }

  predicate SpacedIn(ws: set<Site>, ns: Nodes)
    decreases ns, 0
  {
    ns.Cons? ==> Spaced(ws, ns.head) && SpacedIn(ws, ns.tail)
  }

  lemma {:induction false} SitesAreWrites(n: Node)
    ensures forall s <- Sites(n) :: s.key in Writes(n)
    decreases n, 1
  {
    match n
    case Call(_, _, _, inner) => SitesAreWritesIn(inner);
    case Assign(_, end, _, targets, inner) =>
      SitesAreWritesIn(inner);
      assert forall t <- targets :: t.key in TargetKeys(targets);
    case Scope(_, _, _, _, header, body) =>
      SitesAreWritesIn(header);
      SitesAreWritesIn(body);
  }

  lemma {:induction false} SitesAreWritesIn(ns: Nodes)
    ensures forall s <- SitesIn(ns) :: s.key in WritesIn(ns)
    decreases ns, 0
  {
    if ns.Cons? {
      SitesAreWrites(ns.head);
      SitesAreWritesIn(ns.tail);
    }
  }

  /** Code that writes no traced variable is certain wherever it registers on one that is bound. */
  lemma {:induction false} OtherSpots(ws: set<Site>, n: Node, outer: Kind, barred: set<Key>, fell: set<Key>, s: Sure, traced: set<Key>, bound: set<Key>, avail: set<Key>)
    requires WellFormed(n, avail) && Spaced(ws, n) && Writes(n) !! traced && fell !! traced && s.lost !! traced
    requires bound <= traced && bound * avail <= s.bound && forall k <- bound :: k.from <= n.pos
    ensures var c := Judge(ws, n, outer, barred, fell, s);
            Spots(ws, n, traced, bound) <= c.spots && c.after.lost !! traced && bound * avail <= c.after.bound
    decreases n, 1
  {
    match n
    case Call(_, end, _, inner) => OtherSpotsIn(ws, inner, outer, barred, {}, s, traced, bound, InnerStart(n), end, avail);
    case Assign(pos, end, _, _, inner) => OtherSpotsIn(ws, inner, outer, barred, {}, s, traced, bound, pos, end, avail);
    case Scope(_, _, _, _, _, _) => OtherScopeSpots(ws, n, outer, barred, fell, s, traced, bound, avail);
  }

  lemma {:induction false} OtherScopeSpots(ws: set<Site>, n: Node, outer: Kind, barred: set<Key>, fell: set<Key>, s: Sure,
                                           traced: set<Key>, bound: set<Key>, avail: set<Key>)
    requires n.Scope? && WellFormed(n, avail) && Spaced(ws, n) && Writes(n) !! traced && fell !! traced && s.lost !! traced
    requires bound <= traced && bound * avail <= s.bound && forall k <- bound :: k.from <= n.pos
    ensures var c := Judge(ws, n, outer, barred, fell, s);
            Spots(ws, n, traced, bound) <= c.spots && c.after.lost !! traced && bound * avail <= c.after.bound
    decreases n, 0
  {
    hide Judge, JudgeIn, Unsettled, Late, BoundAfter, WellFormedIn, InnerScope, SpotsIn, Sites;
    var stops, inside, inner, lo := Unsettled(ws, n), if n.kind.LitK? then bound - Late(ws, n) else bound, InnerScope(n, avail), After(n.header, n.pos);
    var e := Sure(s.bound - fell - stops, s.lost);
    var c := JudgeIn(ws, n.header, n.kind, barred + stops, {}, e);
    var d := JudgeIn(ws, n.body, n.kind, barred + stops, {}, c.after);
    ScopeJudgment(ws, n, outer, barred, fell, s);
    SettledInside(ws, n, traced, bound);
    ScopeDeclares(n, avail);
    AfterIsAhead(n.header, n.pos, n.end, avail);
    InnerBound(n, bound, avail);
    OtherSpotsIn(ws, n.header, n.kind, barred + stops, {}, e, traced, inside, n.pos, n.end, avail);
    InnerBound(n, inside, avail);
    OtherSpotsIn(ws, n.body, n.kind, barred + stops, {}, c.after, traced, inside, lo, n.end, inner);
    OtherBound(n, outer, s, c.after, d.after, d.after.lost + if n.kind.LitK? then Writes(n) else {}, traced, bound, avail);
  }

  lemma OtherBound(n: Node, outer: Kind, before: Sure, header: Sure, body: Sure, lost: set<Key>, traced: set<Key>, bound: set<Key>, avail: set<Key>)
    requires n.Scope? && Writes(n) !! traced && lost !! traced && bound <= traced && forall k <- bound :: k.from <= n.pos
    requires bound * avail <= before.bound && (!n.kind.LitK? ==> bound * avail <= header.bound && bound * avail <= body.bound)
    ensures bound * avail <= BoundAfter(n, outer, before, header, body, lost)
  {
  }

  /** What is bound before a scope and in scope inside it is in scope before it. */
  lemma InnerBound(n: Node, bound: set<Key>, avail: set<Key>)
    requires n.Scope? && WellFormed(n, avail) && forall k <- bound :: k.from <= n.pos
    ensures bound * InnerScope(n, avail) == bound * avail
  {
    ScopeDeclares(n, avail);
  }

  lemma SettledInside(ws: set<Site>, n: Node, traced: set<Key>, bound: set<Key>)
    requires n.Scope? && Spaced(ws, n) && Writes(n) !! traced && bound <= traced
    ensures Unsettled(ws, n) !! if n.kind.LitK? then bound - Late(ws, n) else bound
  {
    SitesAreWrites(n);
  }

  lemma {:induction false} OtherSpotsIn(ws: set<Site>, ns: Nodes, outer: Kind, barred: set<Key>, fell: set<Key>, s: Sure, traced: set<Key>, bound: set<Key>,
                                        lo: Pos, hi: Pos, avail: set<Key>)
    requires WellFormedIn(ns, lo, hi, avail) && SpacedIn(ws, ns) && WritesIn(ns) !! traced && fell !! traced && s.lost !! traced
    requires bound <= traced && bound * avail <= s.bound && forall k <- bound :: k.from <= lo
    ensures var c := JudgeIn(ws, ns, outer, barred, fell, s);
            SpotsIn(ws, ns, traced, bound) <= c.spots && c.after.lost !! traced && bound * avail <= c.after.bound
    decreases ns, 0
  {
    if ns.Cons? {
      var c, next := Judge(ws, ns.head, outer, barred, fell, s), avail + Declared(ns.head);
      OtherSpots(ws, ns.head, outer, barred, fell, s, traced, bound, avail);
      assert bound + Writes(ns.head) * traced == bound;
      assert bound * next == bound * avail;
      OtherSpotsIn(ws, ns.tail, outer, barred, FellOn(ns.head, fell), c.after, traced, bound, ns.head.end, hi, next);
    }
  }

  /** Straight-line code is certain wherever it, or anything in it, registers on a bound variable. */
  lemma {:induction false} StraightSpots(ws: set<Site>, n: Node, barred: set<Key>, s: Sure, traced: set<Key>, bound: set<Key>, avail: set<Key>)
    requires WellFormed(n, avail) && Spaced(ws, n) && Straight(n, traced) && Definite(n, traced, bound) && barred !! traced && s.lost !! traced
    requires bound <= traced && bound * avail <= s.bound && forall k <- bound :: k.from <= n.pos
    ensures var c := Judge(ws, n, BlockK, barred, {}, s);
            && Spots(ws, n, traced, bound) <= c.spots && c.after.lost !! traced
            && (bound + Writes(n) * traced) * (avail + Declared(n)) <= c.after.bound
    decreases n, 1
  {
    match n
    case Call(pos, end, registrar, inner) =>
      ExpressionsWriteNone(inner, InnerStart(n), end, avail, traced);
      OtherSpots(ws, n, BlockK, barred, {}, s, traced, bound, avail);
      assert (bound + Writes(n) * traced) * (avail + Declared(n)) == bound * avail;
    case Assign(pos, end, _, targets, inner) =>
      ExpressionsWriteNone(inner, pos, end, avail, traced);
      OtherSpotsIn(ws, inner, BlockK, barred, {}, s, traced, bound, pos, end, avail);
      StraightBound(ws, n, barred, s, traced, bound, avail);
    case Scope(kind, pos, end, _, header, body) =>
      if kind.BlockK? {
        NoHeaderJudged(ws, kind, barred, s);
        assert barred + {} == barred && Sure(s.bound - {} - {}, s.lost) == s;
        assert SpotsIn(ws, header, traced, bound) == {} && InnerScope(n, avail) == avail && barred + {} == barred;
        PartsFit(n);
        StraightSpotsIn(ws, body, barred, s, traced, bound, pos, end, avail);
        assert Writes(n) == {} + WritesIn(body) == WritesIn(body);
      } else {
        OtherSpots(ws, n, BlockK, barred, {}, s, traced, bound, avail);
        assert (bound + Writes(n) * traced) * (avail + Declared(n)) == bound * avail;
      }
  }

  lemma StraightBound(ws: set<Site>, n: Node, barred: set<Key>, s: Sure, traced: set<Key>, bound: set<Key>, avail: set<Key>)
    requires n.Assign? && WellFormed(n, avail) && Straight(n, traced) && Definite(n, traced, bound) && barred !! traced
    requires bound <= traced && bound * avail <= s.bound && (forall k <- bound :: k.from <= n.pos) && WritesIn(n.inner) !! traced
    requires var c := JudgeIn(ws, n.inner, BlockK, barred, {}, s); c.after.lost !! traced && bound * avail <= c.after.bound
    ensures (bound + Writes(n) * traced) * (avail + Declared(n)) <= Judge(ws, n, BlockK, barred, {}, s).after.bound
  {
    var c, r := JudgeIn(ws, n.inner, BlockK, barred, {}, s), Judge(ws, n, BlockK, barred, {}, s);
    forall k | k in (bound + Writes(n) * traced) * (avail + Declared(n)) ensures k in r.after.bound {
      if k in TargetKeys(n.targets) {
        var x :| x in n.targets && x.key == k;
        assert forall j <- ReadsOf(x.rhs) :: j in TargetReads(n.targets) && j in avail;
        assert Follows(x.rhs, s.bound);
        assert k in TargetsFollowing(n.targets, s.bound);
      }
    }
  }

  lemma {:induction false} StraightSpotsIn(ws: set<Site>, ns: Nodes, barred: set<Key>, s: Sure, traced: set<Key>, bound: set<Key>, lo: Pos, hi: Pos, avail: set<Key>)
    requires WellFormedIn(ns, lo, hi, avail) && FitIn(BlockK, ns) && SpacedIn(ws, ns) && StraightIn(ns, traced) && DefiniteIn(ns, traced, bound) && barred !! traced && s.lost !! traced
    requires bound <= traced && bound * avail <= s.bound && forall k <- bound :: k.from <= lo
    ensures var c := JudgeIn(ws, ns, BlockK, barred, {}, s);
            && SpotsIn(ws, ns, traced, bound) <= c.spots && c.after.lost !! traced
            && (bound + WritesIn(ns) * traced) * (avail + DeclaredIn(ns)) <= c.after.bound
    decreases ns, 0
  {
    hide Judge, Spots, Straight, Definite, Spaced;
    if ns.Cons? {
      var head, next := ns.head, avail + Declared(ns.head);
      var c, more := Judge(ws, head, BlockK, barred, {}, s), bound + Writes(head) * traced;
      StraightSpots(ws, head, barred, s, traced, bound, avail);
      WritesEarly(head, avail);
      assert FellOn(head, {}) == {};
      StraightSpotsIn(ws, ns.tail, barred, c.after, traced, more, head.end, hi, next);
      assert bound + WritesIn(ns) * traced == more + WritesIn(ns.tail) * traced;
      assert avail + DeclaredIn(ns) == next + DeclaredIn(ns.tail);
    } else {
      assert bound + {} * traced == bound && avail + {} == avail;
    }
  }

  /**
   Every registration on a bound traced variable is resolved, at any depth: in
   branches and loops, and in function literals created once the variable has
   its last value.  No hazard is about a traced variable.
   */
  lemma StraightLineIsResolved(body: Node, params: seq<Key>, seeds: map<Key, Prefix>, traced: set<Key>)
    requires IsFunction(body, params, seeds) && Straight(body, traced) && Definite(body, traced, seeds.Keys * traced)
    requires StartsBound(params, seeds, traced) && Spaced(Sites(body), body)
    ensures forall e <- Analyzed(body, params, seeds) :: e.Registration? && e.pos in Spots(Sites(body), body, traced, seeds.Keys * traced) ==> IsResolved(e.prefix)
    ensures SeesAll(Analyzed(body, params, seeds), traced)
  {
    var ws, avail, bound := Sites(body), KeySet(params), seeds.Keys * traced;
    StraightLineIsSeen(body, params, seeds, traced);
    CertainIsResolved(body, params, seeds);
    assert bound * avail <= Seeded(seeds).bound;
    StraightSpotsOutermost(ws, body, Seeded(seeds), traced, bound, avail);
  }

  lemma NoHeaderJudged(ws: set<Site>, kind: Kind, barred: set<Key>, s: Sure)
    ensures JudgeIn(ws, Nil, kind, barred, {}, s) == Certain(s, {})
  {
  }

  lemma StraightSpotsOutermost(ws: set<Site>, n: Node, s: Sure, traced: set<Key>, bound: set<Key>, avail: set<Key>)
    requires n.Scope? && n.kind.BlockK? && WellFormed(n, avail) && Spaced(ws, n) && Straight(n, traced) && Definite(n, traced, bound) && s.lost == {}
    requires bound <= traced && bound * avail <= s.bound && forall k <- bound :: k.from <= n.pos
    ensures Spots(ws, n, traced, bound) <= Judge(ws, n, RootK, {}, {}, s).spots
  {
    hide JudgeIn, Judge, Sites, Writes, WellFormedIn, StraightIn, DefiniteIn, SpacedIn;
    ScopeJudgment(ws, n, RootK, {}, {}, s);
    NoHeaderJudged(ws, n.kind, {}, s);
    var none: set<Key> := {};
    assert none + Unsettled(ws, n) == none && Sure(s.bound - {} - {}, s.lost) == s;
    assert SpotsIn(ws, n.header, traced, bound) == {} && InnerScope(n, avail) == avail;
    PartsFit(n);
    StraightSpotsIn(ws, n.body, {}, s, traced, bound, n.pos, n.end, avail);
  }

  lemma StraightLineIsSeen(body: Node, params: seq<Key>, seeds: map<Key, Prefix>, traced: set<Key>)
    requires IsFunction(body, params, seeds) && Straight(body, traced) && Definite(body, traced, seeds.Keys * traced)
    requires StartsBound(params, seeds, traced)
    ensures SeesAll(Analyzed(body, params, seeds), traced)
  {
    var ws, t, avail, bound := Sites(body), Start(body, params, seeds), KeySet(params), seeds.Keys * traced;
    var e := Enter(t, body);
    PartsFit(body);
    ScopeDeclares(body, avail);
    EnterKeepsSane(ws, t, body, avail);
    assert InnerScope(body, avail) == avail && WalkIn(ws, body.header, e) == Walked(e, []);
    EnterKnows(ws, body, t, avail, traced, bound);
    StraightWalkIn(ws, body.body, e, body.pos, body.end, avail, traced, bound);
    assert Analyzed(body, params, seeds) == [] + WalkIn(ws, body.body, e).log == WalkIn(ws, body.body, e).log;
  }

  /** All variables a function writes or is handed, but the traced ones. */
  function Untraced(body: Node, params: seq<Key>, traced: set<Key>): set<Key> {
    Writes(body) + KeySet(params) - traced
  }

  lemma {:induction false} StraightIsIndependent(n: Node, traced: set<Key>, z: set<Key>)
    requires Straight(n, traced) && Writes(n) - traced <= z && z !! traced
    ensures Independent(n, z)
    decreases n, 1
  {
    match n
    case Call(_, _, _, inner) => StraightIsIndependentIn(inner, traced, z);
    case Assign(_, _, _, targets, inner) =>
      StraightIsIndependentIn(inner, traced, z);
      assert forall x <- targets :: x.key in TargetKeys(targets);
    case Scope(kind, _, _, _, header, body) =>
      if kind.BlockK? {
        StraightIsIndependentIn(body, traced, z);
      } else {
        OtherIsIndependent(n, z);
      }
  }

  lemma {:induction false} StraightIsIndependentIn(ns: Nodes, traced: set<Key>, z: set<Key>)
    requires StraightIn(ns, traced) && WritesIn(ns) - traced <= z && z !! traced
    ensures IndependentIn(ns, z)
    decreases ns, 0
  {
    if ns.Cons? {
      StraightIsIndependent(ns.head, traced, z);
      StraightIsIndependentIn(ns.tail, traced, z);
    }
  }

  lemma {:induction false} OtherIsIndependent(n: Node, z: set<Key>)
    requires Writes(n) <= z
    ensures Independent(n, z)
    decreases n, 1
  {
    match n
    case Call(_, _, _, inner) => OtherIsIndependentIn(inner, z);
    case Assign(_, _, _, targets, inner) =>
      OtherIsIndependentIn(inner, z);
      assert forall x <- targets :: x.key in TargetKeys(targets);
    case Scope(_, _, _, _, header, body) =>
      OtherIsIndependentIn(header, z);
      OtherIsIndependentIn(body, z);
  }

  lemma {:induction false} OtherIsIndependentIn(ns: Nodes, z: set<Key>)
    requires WritesIn(ns) <= z
    ensures IndependentIn(ns, z)
    decreases ns, 0
  {
    if ns.Cons? {
      OtherIsIndependent(ns.head, z);
      OtherIsIndependentIn(ns.tail, z);
    }
  }

  /**
   So every registration a call reaches there is handed exactly the registrar
   the analysis says, whatever else the body does, and whatever the other
   parameters are handed.
   */
  lemma StraightLineIsExact(body: Node, params: seq<Key>, seeds: map<Key, Prefix>, args: seq<Value>, plan: Plan, traced: set<Key>)
    requires IsFunction(body, params, seeds) && Straight(body, traced) && Definite(body, traced, seeds.Keys * traced)
    requires StartsBound(params, seeds, traced) && HandedBut(params, seeds, args, Untraced(body, params, traced)) && Spaced(Sites(body), body)
    ensures forall o <- Observed(body, params, args, plan) :: o.key in traced && o.pos in Spots(Sites(body), body, traced, seeds.Keys * traced) ==>
              exists e <- Analyzed(body, params, seeds) ::
                e.Registration? && e.pos == o.pos && e.key == o.key && IsResolved(e.prefix) && o.value == Registrar(e.prefix.value.path)
  {
    var log, z := Analyzed(body, params, seeds), Untraced(body, params, traced);
    StraightLineIsResolved(body, params, seeds, traced);
    StraightIsIndependent(body, traced, z);
    HazardsAreWrites(Sites(body), body, Start(body, params, seeds));
    hide Straight, Definite, Observed, Analyzed, Independent, IsFunction, Spots, Spaced, Sites;
    assert HazardsWithin(log, z);
    TrustedIsSound(body, params, seeds, args, plan, z);
    forall o | o in Observed(body, params, args, plan) && o.key in traced && o.pos in Spots(Sites(body), body, traced, seeds.Keys * traced)
      ensures exists e <- log :: e.Registration? && e.pos == o.pos && e.key == o.key && IsResolved(e.prefix) && o.value == Registrar(e.prefix.value.path)
    {
      var e :| e in log && e.Registration? && e.pos == o.pos && e.key == o.key;
      assert IsResolved(e.prefix);
    }
  }

  /** After each straight-line statement, what a traced variable reads as is what its cell holds: its last write. */
  lemma StraightLineHolds(ws: set<Site>, log: seq<Entry>, n: Node, choice: Choice, env: Env, a: World, t: Tracker, traced: set<Key>, bound: set<Key>)
    requires AllRegistrations(log) && Runnable(ws, log, n, t, env.Keys) && Ready(ws, log, t, env, Writes(n), {}, a)
    requires Straight(n, traced) && Definite(n, traced, bound) && (forall k <- bound :: k.from <= n.pos) && t.top.frame.kind.BlockK?
    requires Knows(ws, t, env.Keys, traced, bound)
    ensures var (o, r) := (Run(n, choice, env, a.st), Walk(ws, n, t).t);
            o.normal ==> forall k <- o.env :: k in bound + Writes(n) * traced ==>
              o.env[k] < |o.st.cells| && IsResolved(Lookup(ws, r, k)) && o.st.cells[o.env[k]].value == Registrar(Lookup(ws, r, k).value.path)
  {
    var o, r := Run(n, choice, env, a.st), Walk(ws, n, t).t;
    var b := RunSound(ws, log, n, choice, env, a, t, {});
    StraightWalk(ws, n, t, env.Keys, traced, bound);
    hide Walk, Run, Runnable, Ready, Straight, Definite, Effect, Sound, Lookup, Writes;
    if o.normal {
      assert Live(ws, r, o.env, o.st, {}) && o.env.Keys == env.Keys + Declared(n);
      forall k | k in o.env && k in bound + Writes(n) * traced
        ensures o.env[k] < |o.st.cells| && IsResolved(Lookup(ws, r, k)) && o.st.cells[o.env[k]].value == Registrar(Lookup(ws, r, k).value.path)
      {
        assert Claims(ws, r, k) && ClaimHolds(ws, r, o.env, o.st, k);
      }
    }
  }
}
