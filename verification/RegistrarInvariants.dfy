/**
 What every walk keeps: which bindings a walk may change, that every write it
 records is noted in the scope it happened in, and that a resolved binding is
 never one a further run of a loop or literal may change.
 */
module RegistrarInvariants {
  import opened Wrappers
  import opened RegistrarSyntax
  import opened RegistrarTracker
  import opened RegistrarStructure

  // ----- invariants of the tracker state

  /** Some open loop or closure inside k's scope may rewrite k each time it runs. */
  predicate KilledWithin(ws: set<Site>, s: Stack, k: Key) {
    ReassignedWhileRunning(ws, s.frame, k)
    || (!Declares(s.frame, k) && s.Push? && KilledWithin(ws, s.parent, k))
  }

  /** k can never be resolved again: a function literal writes it, or it never becomes a registrar. */
  predicate Lost(ws: set<Site>, t: Tracker, k: Key) {
    k in t.captured || (!Traceable(ws, k) && !Touched(t.top, k))
  }

  /** k can never be resolved again in this scope. */
  predicate Doomed(ws: set<Site>, t: Tracker, k: Key) {
    Lost(ws, t, k) || KilledWithin(ws, t.top, k)
  }

  predicate FrameSane(f: Frame, avail: set<Key>) {
    && WrittenKeys(f) <= avail
    && f.fallthroughWrites <= f.branchWrites
    && (f.fallthroughWrites != {} ==> f.kind.CasesK?)
    && (f.branchWrites != {} ==> IsBranching(f.kind))
    && (!f.kind.RootK? ==> forall k <- f.declares :: f.pos < k.from)
  }

  predicate Mentions(s: Stack, k: Key) {
    k in WrittenKeys(s.frame) || (s.Push? && Mentions(s.parent, k))
  }

  /** A resolved binding stands in no scope nested in a loop or closure that may rewrite it. */
  predicate Sane(ws: set<Site>, s: Stack, avail: set<Key>) {
    && FrameSane(s.frame, avail)
    && (s.Push? ==>
          && !s.frame.kind.RootK?
          && (forall k <- s.frame.declares :: !Mentions(s.parent, k))
          && (forall k <- s.frame.values ::
                s.frame.values[k].resolved && !Declares(s.frame, k) ==> !KilledWithin(ws, s.parent, k))
          && Sane(ws, s.parent, avail))
  }

  predicate Known(s: Stack, k: Key) {
    k in s.frame.values || (s.Push? && Known(s.parent, k))
  }

  lemma {:induction false} LookupKnown(ws: set<Site>, s: Stack, k: Key, dependent: bool)
    ensures LookupFrom(ws, s, k, dependent).Some? <==> Known(s, k)
    decreases s
  {
    if s.Push? && k !in s.frame.values {
      LookupKnown(ws, s.parent, k, dependent || ReassignedWhileRunning(ws, s.frame, k));
    }
  }

  lemma {:induction false} KnownIsTouched(s: Stack, k: Key)
    requires Known(s, k)
    ensures Touched(s, k)
    decreases s
  {
    if k !in s.frame.values {
      KnownIsTouched(s.parent, k);
    }
  }

  lemma {:induction false} DependentIsUnresolved(ws: set<Site>, s: Stack, k: Key)
    ensures !IsResolved(LookupFrom(ws, s, k, true))
    decreases s
  {
    if s.Push? && k !in s.frame.values {
      DependentIsUnresolved(ws, s.parent, k);
    }
  }

  lemma {:induction false} KilledIsUnresolved(ws: set<Site>, s: Stack, k: Key, avail: set<Key>)
    requires Sane(ws, s, avail)
    requires KilledWithin(ws, s, k)
    ensures !IsResolved(LookupFrom(ws, s, k, false))
    decreases s
  {
    if ReassignedWhileRunning(ws, s.frame, k) {
      if s.Push? && k !in s.frame.values {
        DependentIsUnresolved(ws, s.parent, k);
      }
    } else if s.Push? && k !in s.frame.values {
      KilledIsUnresolved(ws, s.parent, k, avail);
    }
  }

  lemma DoomedIsUnresolved(ws: set<Site>, t: Tracker, k: Key, avail: set<Key>)
    requires Sane(ws, t.top, avail)
    requires Doomed(ws, t, k)
    ensures !IsResolved(Lookup(ws, t, k))
  {
    if k in t.captured {
      DependentIsUnresolved(ws, t.top, k);
    } else if Lost(ws, t, k) {
      if Known(t.top, k) {
        KnownIsTouched(t.top, k);
      }
      LookupKnown(ws, t.top, k, false);
    } else {
      KilledIsUnresolved(ws, t.top, k, avail);
    }
  }

  /** Which scopes are open decides what is killed, not what they hold. */
  lemma {:induction false} KilledByOutline(ws: set<Site>, s: Stack, r: Stack, k: Key)
    requires Outline(s) == Outline(r)
    ensures KilledWithin(ws, s, k) == KilledWithin(ws, r, k)
    decreases s
  {
    assert Blank(s.frame) == Blank(r.frame);
    if s.Push? {
      KilledByOutline(ws, s.parent, r.parent, k);
    }
  }

  lemma {:induction false} CrossesByOutline(s: Stack, r: Stack, k: Key)
    requires Outline(s) == Outline(r)
    ensures CrossesLiteral(s, k) == CrossesLiteral(r, k)
    decreases s
  {
    assert Blank(s.frame) == Blank(r.frame);
    if s.Push? {
      CrossesByOutline(s.parent, r.parent, k);
    }
  }

  lemma {:induction false} SaneWidens(ws: set<Site>, s: Stack, avail: set<Key>, more: set<Key>)
    requires Sane(ws, s, avail) && avail <= more
    ensures Sane(ws, s, more)
    decreases s
  {
    if s.Push? {
      SaneWidens(ws, s.parent, avail, more);
    }
  }

  lemma {:induction false} SaneMentions(ws: set<Site>, s: Stack, avail: set<Key>, k: Key)
    requires Sane(ws, s, avail) && k !in avail
    ensures !Mentions(s, k)
    decreases s
  {
    if s.Push? {
      SaneMentions(ws, s.parent, avail, k);
    }
  }

  lemma {:induction false} SaneNarrows(ws: set<Site>, s: Stack, avail: set<Key>, inner: set<Key>, dropped: set<Key>)
    requires Sane(ws, s, inner)
    requires inner <= avail + dropped
    requires forall k <- dropped :: !Mentions(s, k)
    ensures Sane(ws, s, avail)
    decreases s
  {
    if s.Push? {
      SaneNarrows(ws, s.parent, avail, inner, dropped);
    }
  }

  // ----- what a walk may change

  predicate FrameGrew(f: Frame, g: Frame, w: set<Key>) {
    && f.values.Keys <= g.values.Keys <= f.values.Keys + w
    && (forall k <- f.values :: k !in w ==> g.values[k] == f.values[k])
    && f.branchWrites <= g.branchWrites <= f.branchWrites + w
  }

  predicate StackGrew(s: Stack, r: Stack, w: set<Key>) {
    && Blank(s.frame) == Blank(r.frame)
    && FrameGrew(s.frame, r.frame, w)
    && s.Push? == r.Push?
    && (s.Push? ==> StackGrew(s.parent, r.parent, w))
  }

  /** r is t after writes to w alone. */
  predicate Grew(t: Tracker, r: Tracker, w: set<Key>) {
    StackGrew(t.top, r.top, w) && t.captured <= r.captured <= t.captured + w
  }

  lemma {:induction false} StackGrewReflexive(s: Stack, w: set<Key>)
    ensures StackGrew(s, s, w)
    decreases s
  {
    if s.Push? {
      StackGrewReflexive(s.parent, w);
    }
  }

  lemma {:induction false} StackGrewTransitive(s: Stack, r: Stack, q: Stack, w: set<Key>, x: set<Key>)
    requires StackGrew(s, r, w) && StackGrew(r, q, x)
    ensures StackGrew(s, q, w + x)
    decreases s
  {
    if s.Push? {
      StackGrewTransitive(s.parent, r.parent, q.parent, w, x);
    }
  }

  lemma GrewTransitive(t: Tracker, r: Tracker, q: Tracker, w: set<Key>, x: set<Key>)
    requires Grew(t, r, w) && Grew(r, q, x)
    ensures Grew(t, q, w + x)
  {
    StackGrewTransitive(t.top, r.top, q.top, w, x);
  }

  lemma {:induction false} LookupUnchanged(ws: set<Site>, s: Stack, r: Stack, w: set<Key>, k: Key, dependent: bool)
    requires StackGrew(s, r, w) && k !in w
    ensures LookupFrom(ws, s, k, dependent) == LookupFrom(ws, r, k, dependent)
    decreases s
  {
    assert Blank(s.frame) == Blank(r.frame);
    if s.Push? {
      LookupUnchanged(ws, s.parent, r.parent, w, k, dependent || ReassignedWhileRunning(ws, s.frame, k));
    }
  }

  /** A variable a walk does not write keeps its binding. */
  lemma UnwrittenKeepsBinding(ws: set<Site>, t: Tracker, r: Tracker, w: set<Key>, k: Key)
    requires Grew(t, r, w) && k !in w
    ensures Lookup(ws, t, k) == Lookup(ws, r, k)
  {
    LookupUnchanged(ws, t.top, r.top, w, k, k in t.captured);
  }

  lemma {:induction false} KnownGrows(s: Stack, r: Stack, w: set<Key>, k: Key)
    requires StackGrew(s, r, w)
    ensures Known(s, k) ==> Known(r, k)
    ensures k !in w ==> Known(s, k) == Known(r, k)
    decreases s
  {
    if s.Push? {
      KnownGrows(s.parent, r.parent, w, k);
    }
  }

  lemma {:induction false} StackGrewOutline(s: Stack, r: Stack, w: set<Key>)
    requires StackGrew(s, r, w)
    ensures Outline(s) == Outline(r)
    decreases s
  {
    if s.Push? {
      StackGrewOutline(s.parent, r.parent, w);
    }
  }

  /** Only variables that can be traced come to be written in r. */
  ghost predicate Tracks(ws: set<Site>, t: Tracker, r: Tracker) {
    forall k :: Touched(r.top, k) ==> Touched(t.top, k) || Traceable(ws, k)
  }

  lemma SetTouches(s: Stack, k: Key, v: Prefix, j: Key)
    ensures Touched(SetIn(s, k, v), j) ==> Touched(s, j) || j == k
  {
    if LandsOutside(s, k) {
      var parent := OnTop(s.parent, WithValue(s.parent.frame, k, v));
      assert Touched(parent, j) ==> Touched(s.parent, j) || j == k;
    }
  }

  lemma SetKeepsTouched(s: Stack, k: Key, v: Prefix, j: Key)
    requires Touched(s, j)
    ensures Touched(SetIn(s, k, v), j)
  {
  }

  lemma EnterTouches(t: Tracker, n: Node, k: Key)
    requires n.Scope?
    ensures Touched(Enter(t, n).top, k) <==> Touched(t.top, k)
  {
  }

  lemma LeaveTouches(t: Tracker, k: Key)
    requires t.top.Push?
    ensures Touched(Leave(t).top, k) ==> Touched(t.top, k)
  {
  }

  /** What an assignment records can be traced, or was written before. */
  lemma RecordedIsTraced(ws: set<Site>, n: Node, t: Tracker, x: Target)
    requires n.Assign? && Sites(n) <= ws && x in n.targets && Recorded(ws, t, x)
    ensures Traceable(ws, x.key) || Known(t.top, x.key)
  {
    if RhsBinding(ws, t, x.rhs).traced {
      var site := Site(x.key, n.end, !x.rhs.Opaque?);
      assert site in (set y | y in n.targets :: Site(y.key, n.end, !y.rhs.Opaque?));
      assert site in ws;
    } else {
      LookupKnown(ws, t.top, x.key, x.key in t.captured);
    }
  }

  lemma {:induction false} TargetsTrack(ws: set<Site>, before: Tracker, t: Tracker, pos: Pos, targets: seq<Target>, k: Key)
    requires Touched(WriteTargets(ws, before, t, pos, targets).top, k)
    ensures Touched(t.top, k) || exists x <- targets :: x.key == k && Recorded(ws, before, x)
    decreases |targets|
  {
    if targets != [] {
      var x := targets[0];
      TargetsTrack(ws, before, WriteTarget(ws, before, t, pos, x), pos, targets[1..], k);
      SetTouches(t.top, x.key, WrittenValue(t.top, x.key, pos, RhsBinding(ws, before, x.rhs).value), k);
    }
  }

  /** A walk comes to write only variables that can be traced. */
  lemma {:induction false} WalkTracks(ws: set<Site>, n: Node, t: Tracker)
    requires Sites(n) <= ws
    ensures Tracks(ws, t, Walk(ws, n, t).t)
    decreases n, 1
  {
    match n
    case Call(_, _, _, inner) => WalkInTracks(ws, inner, t);
    case Assign(pos, _, _, targets, inner) =>
      WalkInTracks(ws, inner, t);
      var w := WalkIn(ws, inner, t).t;
      forall k | Touched(Walk(ws, n, t).t.top, k) ensures Touched(t.top, k) || Traceable(ws, k) {
        TargetsTrack(ws, t, w, pos, targets, k);
        if !Touched(w.top, k) {
          var x :| x in targets && x.key == k && Recorded(ws, t, x);
          RecordedIsTraced(ws, n, t, x);
          if !Traceable(ws, k) {
            KnownIsTouched(t.top, k);
          }
        }
      }
    case Scope(_, _, _, _, header, body) =>
      var e := Enter(t, n);
      var w := WalkIn(ws, header, e).t;
      var r := WalkIn(ws, body, w).t;
      WalkInTracks(ws, header, e);
      WalkInTracks(ws, body, w);
      forall k | Touched(Leave(r).top, k) ensures Touched(t.top, k) || Traceable(ws, k) {
        LeaveTouches(r, k);
        EnterTouches(t, n, k);
      }
  }

  lemma {:induction false} WalkInTracks(ws: set<Site>, ns: Nodes, t: Tracker)
    requires SitesIn(ns) <= ws
    ensures Tracks(ws, t, WalkIn(ws, ns, t).t)
    decreases ns, 0
  {
    if ns.Cons? {
      WalkTracks(ws, ns.head, t);
      WalkInTracks(ws, ns.tail, Walk(ws, ns.head, t).t);
    }
  }

  // ----- which nodes stand in which scope

  predicate Fits(kind: Kind, n: Node) {
    if !n.Scope? then !kind.CasesK?
    else match n.kind
      case RootK => false
      case ClauseK(_) => kind.CasesK?
      case CasesK => kind.SwitchK? || kind.SelectK?
      case LitK => !kind.CasesK?
      case BlockK => !kind.CasesK? && !kind.SwitchK? && !kind.SelectK?
      case IfK => kind.BlockK? || kind.ClauseK? || kind.IfK?
      case _ => kind.BlockK? || kind.ClauseK?
  }

  predicate FitIn(kind: Kind, ns: Nodes) {
    ns.Cons? ==> Fits(kind, ns.head) && FitIn(kind, ns.tail)
  }

  lemma {:induction false} ExpressionsFit(kind: Kind, ns: Nodes)
    requires AreExpressions(ns) && !kind.CasesK?
    ensures FitIn(kind, ns)
    decreases ns
  {
    if ns.Cons? {
      ExpressionsFit(kind, ns.tail);
    }
  }

  lemma {:induction false} SimpleFit(kind: Kind, ns: Nodes)
    requires AreSimple(ns) && !kind.CasesK?
    ensures FitIn(kind, ns)
    decreases ns
  {
    if ns.Cons? {
      SimpleFit(kind, ns.tail);
    }
  }

  lemma {:induction false} StatementsFit(kind: Kind, ns: Nodes)
    requires AreStatements(ns) && (kind.BlockK? || kind.ClauseK?)
    ensures FitIn(kind, ns)
    decreases ns
  {
    if ns.Cons? {
      StatementsFit(kind, ns.tail);
    }
  }

  lemma {:induction false} ClausesFit(ns: Nodes)
    requires AreClauses(ns)
    ensures FitIn(CasesK, ns)
    decreases ns
  {
    if ns.Cons? {
      ClausesFit(ns.tail);
    }
  }

  lemma {:induction false} LoopPartsFit(kind: Kind, ns: Nodes)
    requires AreLoopParts(ns) && IsLoop(kind)
    ensures FitIn(kind, ns)
    ensures DeclaredIn(ns) == {}
    decreases ns
  {
    if ns.tail.Cons? {
      LoopPartsFit(kind, ns.tail);
    }
  }

  lemma {:induction false} ClausesDeclareNothing(ns: Nodes)
    requires AreClauses(ns)
    ensures DeclaredIn(ns) == {}
    decreases ns
  {
    if ns.Cons? {
      ClausesDeclareNothing(ns.tail);
    }
  }

  /** The parts of a scope fit in it, and only a block's or clause's body declares. */
  lemma {:induction false} PartsFit(n: Node)
    requires n.Scope? && WellShaped(n)
    ensures FitIn(n.kind, n.header) && FitIn(n.kind, n.body)
    ensures !n.kind.BlockK? && !n.kind.ClauseK? ==> DeclaredIn(n.body) == {}
    ensures n.kind.RangeK? ==> DeclaredIn(n.header) == {}
  {
    match n.kind
    case BlockK => StatementsFit(n.kind, n.body);
    case ClauseK(_) => StatementsFit(n.kind, n.body);
    case IfK =>
      SimpleFit(n.kind, n.header);
      assert n.body.tail.Cons? ==> DeclaredIn(n.body.tail) == {};
    case SwitchK => SimpleFit(n.kind, n.header);
    case SelectK =>
    case CasesK => ClausesFit(n.body); ClausesDeclareNothing(n.body);
    case ForK(_) => SimpleFit(n.kind, n.header); LoopPartsFit(n.kind, n.body);
    case RangeK => ExpressionsFit(n.kind, n.header); ExpressionsDeclareNothing(n.header); LoopPartsFit(n.kind, n.body);
    case LitK =>
  }

  // ----- one step at a time

  lemma {:induction false} UncarriedIsNotKilled(ws: set<Site>, s: Stack, k: Key, pos: Pos, avail: set<Key>)
    requires Sane(ws, s, avail)
    requires k.from <= pos
    requires !CarriedAcrossRuns(s, k, pos)
    ensures Declares(s.frame, k) || !KilledWithin(ws, s, k)
    ensures s.frame.kind.ForK? || !KilledWithin(ws, s, k)
    decreases s
  {
    if !Declares(s.frame, k) && s.Push? {
      UncarriedIsNotKilled(ws, s.parent, k, pos, avail);
    }
  }

  /** A write keeps the state sane and changes the binding of its own variable alone. */
  lemma SetKeepsSane(ws: set<Site>, s: Stack, k: Key, pos: Pos, v: Prefix, avail: set<Key>)
    requires Sane(ws, s, avail) && k in avail && (k.from <= pos || Declares(s.frame, k))
    ensures Sane(ws, SetIn(s, k, WrittenValue(s, k, pos, v)), avail)
    ensures StackGrew(s, SetIn(s, k, WrittenValue(s, k, pos, v)), {k})
  {
    if s.Push? {
      StackGrewReflexive(s.parent, {k});
      if s.parent.Push? {
        StackGrewReflexive(s.parent.parent, {k});
      }
    }
    var from := if LandsOutside(s, k) then s.parent else s;
    var value := WrittenValue(s, k, pos, v);
    if value.resolved && !Declares(from.frame, k) && from.Push? {
      UncarriedIsNotKilled(ws, from, k, pos, avail);
    }
    if LandsOutside(s, k) {
      var parent := OnTop(s.parent, WithValue(s.parent.frame, k, value));
      assert Sane(ws, parent, avail);
      SaneSurvives(ws, s, parent);
    }
  }

  /** What a scope holds stays sane when only bindings of the scopes around it change. */
  lemma SaneSurvives(ws: set<Site>, s: Stack, parent: Stack)
    requires s.Push? && Outline(s.parent) == Outline(parent)
    ensures forall k :: KilledWithin(ws, s.parent, k) == KilledWithin(ws, parent, k)
  {
    forall k ensures KilledWithin(ws, s.parent, k) == KilledWithin(ws, parent, k) {
      KilledByOutline(ws, s.parent, parent, k);
    }
  }

  /** Entering a scope keeps the state sane. */
  lemma EnterKeepsSane(ws: set<Site>, t: Tracker, n: Node, avail: set<Key>)
    requires n.Scope? && !n.kind.RootK? && Sane(ws, t.top, avail)
    requires forall k <- n.declares :: n.pos < k.from && k !in avail
    ensures Sane(ws, Enter(t, n).top, avail)
  {
    forall k | k in n.declares ensures !Mentions(Enter(t, n).top.parent, k) {
      SaneMentions(ws, t.top, avail, k);
    }
  }

  /** Leaving a scope keeps the state sane, and drops what the scope declares. */
  lemma LeaveKeepsSane(ws: set<Site>, t: Tracker, avail: set<Key>, inner: set<Key>)
    requires t.top.Push? && Sane(ws, t.top, inner)
    requires inner <= avail + KeySet(t.top.frame.declares)
    requires IsBranch(t.top.frame, t.top.parent.frame) && WrittenKeys(t.top.frame) != {} ==> IsBranching(t.top.parent.frame.kind)
    requires FallsThrough(t.top.frame) ==> t.top.parent.frame.kind.CasesK?
    ensures Sane(ws, Leave(t).top, avail)
  {
    var left, outer := t.top.frame, t.top.parent;
    SaneNarrows(ws, outer, avail, inner, KeySet(left.declares));
    if IsBareBlock(left, outer.frame) && outer.Push? {
      forall k | k in Leave(t).top.frame.values && Leave(t).top.frame.values[k].resolved && !Declares(outer.frame, k)
        ensures !KilledWithin(ws, outer.parent, k)
      {
        if k in left.values && !Declares(left, k) {
          assert !KilledWithin(ws, outer, k);
        }
      }
    }
  }

  /** Leaving a scope changes the bindings of what was written in it alone. */
  lemma LeaveGrew(ws: set<Site>, t: Tracker, n: Node, r: Tracker, w: set<Key>, avail: set<Key>)
    requires n.Scope? && Fits(t.top.frame.kind, n) && Sane(ws, t.top, avail)
    requires Grew(Enter(t, n), r, w)
    ensures Grew(t, Leave(r), w)
  {
    var f, left, outer, parent := t.top.frame, r.top.frame, Enter(t, n).top.parent, r.top.parent;
    assert StackGrew(outer, parent, w);
    assert f.fallthroughWrites != {} ==> n.kind.ClauseK?;
    assert Blank(left) == Blank(Enter(t, n).top.frame);
    assert Blank(f) == Blank(outer.frame) == Blank(parent.frame);
    assert Outward(left) <= f.fallthroughWrites + w;
    assert FrameGrew(f, LeaveInto(parent.frame, left), w);
  }

  lemma {:induction false} TargetsKeep(ws: set<Site>, before: Tracker, t: Tracker, pos: Pos, targets: seq<Target>, avail: set<Key>)
    requires Sane(ws, t.top, avail) && TargetKeys(targets) <= avail
    requires forall k <- TargetKeys(targets) :: k.from <= pos || Declares(t.top.frame, k)
    ensures Sane(ws, WriteTargets(ws, before, t, pos, targets).top, avail)
    ensures Grew(t, WriteTargets(ws, before, t, pos, targets), TargetKeys(targets))
    decreases |targets|
  {
    if targets == [] {
      StackGrewReflexive(t.top, TargetKeys(targets));
    } else {
      var target := targets[0];
      var r := WriteTarget(ws, before, t, pos, target);
      assert target.key in TargetKeys(targets);
      SetKeepsSane(ws, t.top, target.key, pos, RhsBinding(ws, before, target.rhs).value, avail);
      StackGrewReflexive(t.top, {target.key});
      assert TargetKeys(targets) == {target.key} + TargetKeys(targets[1..]);
      assert Blank(t.top.frame) == Blank(r.top.frame);
      TargetsKeep(ws, before, r, pos, targets[1..], avail);
      GrewTransitive(t, r, WriteTargets(ws, before, t, pos, targets), {target.key}, TargetKeys(targets[1..]));
    }
  }

  // ----- the whole walk

  /** A walk keeps the state sane and changes the bindings of what it writes alone. */
  lemma {:induction false} WalkKeeps(ws: set<Site>, n: Node, t: Tracker, avail: set<Key>)
    requires WellFormed(n, avail) && Fits(t.top.frame.kind, n) && Sane(ws, t.top, avail)
    requires forall k <- Declared(n) :: Declares(t.top.frame, k)
    ensures Grew(t, Walk(ws, n, t).t, Writes(n))
    ensures Sane(ws, Walk(ws, n, t).t.top, avail + Declared(n))
    decreases n, 1
  {
    hide Sane, Grew, Lookup, WellFormedIn;
    match n
    case Call(pos, end, registrar, inner) =>
      ExpressionsFit(t.top.frame.kind, inner);
      ExpressionsDeclareNothing(inner);
      WalkInKeeps(ws, inner, t, if registrar.Some? then pos + 1 else pos, end, avail);
      assert avail + DeclaredIn(inner) == avail + Declared(n) == avail;
    case Assign(pos, end, decls, targets, inner) =>
      ExpressionsFit(t.top.frame.kind, inner);
      ExpressionsDeclareNothing(inner);
      WalkInKeeps(ws, inner, t, pos, end, avail);
      assert avail + DeclaredIn(inner) == avail;
      var w := WalkIn(ws, inner, t).t;
      assert Blank(t.top.frame) == Blank(w.top.frame);
      SaneWidens(ws, w.top, avail, avail + Declared(n));
      TargetsKeep(ws, t, w, pos, targets, avail + Declared(n));
      GrewTransitive(t, w, Walk(ws, n, t).t, WritesIn(inner), TargetKeys(targets));
      assert Writes(n) == WritesIn(inner) + TargetKeys(targets);
    case Scope(_, _, _, _, _, _) =>
      WalkScopeKeeps(ws, n, t, avail);
      assert avail + Declared(n) == avail;
  }

  lemma {:induction false} WalkScopeKeeps(ws: set<Site>, n: Node, t: Tracker, avail: set<Key>)
    requires n.Scope? && WellFormed(n, avail) && Fits(t.top.frame.kind, n) && Sane(ws, t.top, avail)
    ensures Grew(t, Walk(ws, n, t).t, Writes(n))
    ensures Sane(ws, Walk(ws, n, t).t.top, avail)
    decreases n, 0
  {
    PartsFit(n);
    var e := Enter(t, n);
    EnterKeepsSane(ws, t, n, avail);
    ScopeDeclares(n, avail);
    WalkInKeeps(ws, n.header, e, n.pos, n.end, avail);
    var w := WalkIn(ws, n.header, e).t;
    var inner := InnerScope(n, avail);
    SaneWidens(ws, w.top, avail + DeclaredIn(n.header), inner);
    assert Blank(e.top.frame) == Blank(w.top.frame);
    WalkInKeeps(ws, n.body, w, After(n.header, n.pos), n.end, inner);
    var r := WalkIn(ws, n.body, w).t;
    GrewTransitive(e, w, r, WritesIn(n.header), WritesIn(n.body));
    LeaveGrew(ws, t, n, r, Writes(n), avail);
    assert Blank(e.top.frame) == Blank(r.top.frame);
    assert Blank(t.top.frame) == Blank(r.top.parent.frame);
    LeaveKeepsSane(ws, r, avail, inner + DeclaredIn(n.body));
  }

  /** A scope's frame declares exactly what its header and body declare. */
  lemma ScopeDeclares(n: Node, avail: set<Key>)
    requires n.Scope? && WellFormed(n, avail)
    ensures forall k <- DeclaredIn(n.header) :: k in n.declares
    ensures forall k <- DeclaredIn(n.body) :: k in n.declares
    ensures InnerScope(n, avail) + DeclaredIn(n.body) <= avail + KeySet(n.declares)
    ensures DeclaredIn(n.header) <= InnerScope(n, avail)
    ensures avail <= InnerScope(n, avail)
  {
    PartsFit(n);
    forall k | k in DeclaredIn(n.header) + DeclaredIn(n.body) ensures k in n.declares {
      assert k in KeySet(n.declares);
    }
  }

  lemma {:induction false} WalkInKeeps(ws: set<Site>, ns: Nodes, t: Tracker, lo: Pos, hi: Pos, avail: set<Key>)
    requires WellFormedIn(ns, lo, hi, avail) && FitIn(t.top.frame.kind, ns) && Sane(ws, t.top, avail)
    requires forall k <- DeclaredIn(ns) :: Declares(t.top.frame, k)
    ensures Grew(t, WalkIn(ws, ns, t).t, WritesIn(ns))
    ensures Sane(ws, WalkIn(ws, ns, t).t.top, avail + DeclaredIn(ns))
    decreases ns, 0
  {
    match ns
    case Nil =>
      StackGrewReflexive(t.top, {});
      assert avail + {} == avail;
    case Cons(head, tail) =>
      forall k | k in Declared(head) ensures Declares(t.top.frame, k) {
        assert k in DeclaredIn(ns);
      }
      WalkKeeps(ws, head, t, avail);
      var w := Walk(ws, head, t).t;
      assert Blank(t.top.frame) == Blank(w.top.frame);
      forall k | k in DeclaredIn(tail) ensures Declares(w.top.frame, k) {
        assert k in DeclaredIn(ns);
      }
      WalkInKeeps(ws, tail, w, head.end, hi, avail + Declared(head));
      GrewTransitive(t, w, WalkIn(ws, ns, t).t, Writes(head), WritesIn(tail));
      assert avail + DeclaredIn(ns) == avail + Declared(head) + DeclaredIn(tail);
  }

  lemma {:induction false} ExpressionsDeclareNothing(ns: Nodes)
    requires AreExpressions(ns)
    ensures DeclaredIn(ns) == {}
    decreases ns
  {
    if ns.Cons? {
      ExpressionsDeclareNothing(ns.tail);
    }
  }
}
