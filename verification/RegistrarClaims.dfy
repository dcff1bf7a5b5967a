/**
 What the analysis claims after a scope is entered or left, in terms of what it
 claimed before: a conditional, a loop or a closure loses the claims on what it
 writes, a bare block keeps them.
 */
module RegistrarClaims {
  import opened Wrappers
  import opened RegistrarSyntax
  import opened RegistrarTracker
  import opened RegistrarStructure
  import opened RegistrarInvariants
  import opened RegistrarNotes
  import opened RegistrarWorld

  /** t as the next clause sees it: what fell through is path-dependent. */
  function Masked(t: Tracker): Tracker {
    var f := t.top.frame;
    t.(top := OnTop(t.top, f.(values := f.values + map k | k in f.fallthroughWrites :: PATH_DEPENDENT)))
  }

  /** n stands well in the scope t is in. */
  predicate Placed(ws: set<Site>, n: Node, t: Tracker, avail: set<Key>) {
    && WellFormed(n, avail) && Fits(t.top.frame.kind, n) && Sane(ws, t.top, avail)
    && Sites(n) <= ws && (forall k <- Declared(n) :: Declares(t.top.frame, k))
  }

  predicate PlacedIn(ws: set<Site>, ns: Nodes, t: Tracker, lo: Pos, hi: Pos, avail: set<Key>) {
    && WellFormedIn(ns, lo, hi, avail) && FitIn(t.top.frame.kind, ns) && Sane(ws, t.top, avail)
    && SitesIn(ns) <= ws && (forall k <- DeclaredIn(ns) :: Declares(t.top.frame, k))
  }

  lemma MaskedIsSame(t: Tracker)
    requires t.top.frame.fallthroughWrites == {}
    ensures Masked(t) == t
  {
    assert t.top.frame.values + (map k | k in t.top.frame.fallthroughWrites :: PATH_DEPENDENT) == t.top.frame.values;
  }

  lemma MaskedLookup(ws: set<Site>, t: Tracker, k: Key)
    ensures k in t.top.frame.fallthroughWrites ==> Lookup(ws, Masked(t), k) == Some(PATH_DEPENDENT)
    ensures k !in t.top.frame.fallthroughWrites ==> Lookup(ws, Masked(t), k) == Lookup(ws, t, k)
    ensures Outline(Masked(t).top) == Outline(t.top)
  {
  }

  lemma MaskedDoomed(ws: set<Site>, t: Tracker, k: Key)
    ensures Doomed(ws, Masked(t), k) == Doomed(ws, t, k)
  {
    MaskedLookup(ws, t, k);
    KilledByOutline(ws, Masked(t).top, t.top, k);
    assert Touched(Masked(t).top, k) == Touched(t.top, k);
  }

  lemma DoomedGrows(ws: set<Site>, t: Tracker, r: Tracker, w: set<Key>, k: Key)
    requires Grew(t, r, w) && Tracks(ws, t, r) && Doomed(ws, t, k)
    ensures Doomed(ws, r, k)
  {
    StackGrewOutline(t.top, r.top, w);
    KilledByOutline(ws, t.top, r.top, k);
  }

  /** Only what the innermost frame holds for k matters. */
  lemma TopLookup(ws: set<Site>, s: Stack, f: Frame, k: Key, dependent: bool)
    requires Blank(f) == Blank(s.frame)
    requires k in f.values <==> k in s.frame.values
    requires k in f.values ==> f.values[k] == s.frame.values[k]
    ensures LookupFrom(ws, OnTop(s, f), k, dependent) == LookupFrom(ws, s, k, dependent)
  {
    assert ReassignedWhileRunning(ws, f, k) == ReassignedWhileRunning(ws, s.frame, k);
  }

  lemma ClaimedIsFree(ws: set<Site>, t: Tracker, k: Key)
    requires Claims(ws, t, k)
    ensures k !in t.captured
  {
    if k in t.captured {
      DependentIsUnresolved(ws, t.top, k);
    }
  }

  // ----- entering

  lemma EnterClaims(ws: set<Site>, t: Tracker, n: Node, k: Key)
    requires n.Scope? && Claims(ws, Enter(t, n), k)
    ensures Lookup(ws, Enter(t, n), k) == Lookup(ws, Masked(t), k)
    ensures !ReassignedWhileRunning(ws, NewFrame(n, map[]), k)
  {
    var e := Enter(t, n);
    var f := t.top.frame;
    var outer := OnTop(t.top, f.(fallthroughWrites := {}));
    assert k !in e.top.frame.values;
    if ReassignedWhileRunning(ws, e.top.frame, k) {
      DependentIsUnresolved(ws, outer, k);
    }
    TopLookup(ws, t.top, f.(fallthroughWrites := {}), k, k in t.captured);
    MaskedLookup(ws, t, k);
  }

  lemma EnterDooms(ws: set<Site>, t: Tracker, n: Node, k: Key)
    requires n.Scope? && n.kind != RootK && Doomed(ws, Masked(t), k) && k !in n.declares
    ensures Doomed(ws, Enter(t, n), k)
  {
    MaskedDoomed(ws, t, k);
    EnterTouches(t, n, k);
    KilledByOutline(ws, t.top, Enter(t, n).top.parent, k);
  }

  // ----- a scope, step by step

  function HeaderWalked(ws: set<Site>, n: Node, t: Tracker): Tracker
    requires n.Scope?
  {
    WalkIn(ws, n.header, Enter(t, n)).t
  }

  function BodyWalked(ws: set<Site>, n: Node, t: Tracker): Tracker
    requires n.Scope?
  {
    WalkIn(ws, n.body, HeaderWalked(ws, n, t)).t
  }

  /** The state between the steps of a scope's walk is as good as the one before it. */
  lemma ScopeSteps(ws: set<Site>, n: Node, t: Tracker, avail: set<Key>)
    requires n.Scope? && Placed(ws, n, t, avail)
    ensures PlacedIn(ws, n.header, Enter(t, n), n.pos, n.end, avail)
    ensures PlacedIn(ws, n.body, HeaderWalked(ws, n, t), After(n.header, n.pos), n.end, InnerScope(n, avail))
    ensures Grew(Enter(t, n), HeaderWalked(ws, n, t), WritesIn(n.header))
    ensures Grew(HeaderWalked(ws, n, t), BodyWalked(ws, n, t), WritesIn(n.body))
    ensures Grew(Enter(t, n), BodyWalked(ws, n, t), Writes(n))
    ensures Sane(ws, BodyWalked(ws, n, t).top, InnerScope(n, avail) + DeclaredIn(n.body))
    ensures Sane(ws, HeaderWalked(ws, n, t).top, InnerScope(n, avail))
    ensures Grew(t, Walk(ws, n, t).t, Writes(n))
    ensures Tracks(ws, t, Walk(ws, n, t).t)
    ensures Blank(BodyWalked(ws, n, t).top.frame) == Blank(HeaderWalked(ws, n, t).top.frame) == Blank(NewFrame(n, map[]))
  {
    WalkTracks(ws, n, t);
    PartsFit(n);
    ScopeDeclares(n, avail);
    EnterKeepsSane(ws, t, n, avail);
    var e := Enter(t, n);
    var w := WalkIn(ws, n.header, e);
    WalkInKeeps(ws, n.header, e, n.pos, n.end, avail);
    var inner := InnerScope(n, avail);
    SaneWidens(ws, w.t.top, avail + DeclaredIn(n.header), inner);
    assert Blank(e.top.frame) == Blank(w.t.top.frame);
    WalkInKeeps(ws, n.body, w.t, After(n.header, n.pos), n.end, inner);
    GrewTransitive(e, w.t, BodyWalked(ws, n, t), WritesIn(n.header), WritesIn(n.body));
    WalkScopeKeeps(ws, n, t, avail);
  }

  lemma PartsLoseNothing(ws: set<Site>, n: Node, t: Tracker)
    requires n.Scope? && NothingLost(Walk(ws, n, t).log)
    ensures NothingLost(WalkIn(ws, n.header, Enter(t, n)).log) && NothingLost(WalkIn(ws, n.body, HeaderWalked(ws, n, t)).log)
  {
    NothingLostSplit(WalkIn(ws, n.header, Enter(t, n)).log, WalkIn(ws, n.body, HeaderWalked(ws, n, t)).log);
  }

  predicate AreScopes(ns: Nodes) {
    ns.Cons? ==> ns.head.Scope? && !ns.head.kind.LitK? && AreScopes(ns.tail)
  }

  /** What the scopes of a list write is marked in the scope around them. */
  lemma {:induction false} ScopesMark(ws: set<Site>, ns: Nodes, t: Tracker, lo: Pos, hi: Pos, avail: set<Key>, k: Key)
    requires PlacedIn(ws, ns, t, lo, hi, avail) && AreScopes(ns) && NothingLost(WalkIn(ws, ns, t).log)
    requires k in avail && k in WritesIn(ns)
    ensures Marked(WalkIn(ws, ns, t).t.top, k) || !Known(WalkIn(ws, ns, t).t.top, k) || k in WalkIn(ws, ns, t).t.captured
    decreases ns
  {
    var head, tail := ns.head, ns.tail;
    var w := Walk(ws, head, t);
    var r := WalkIn(ws, tail, w.t);
    NothingLostSplit(w.log, r.log);
    WalkKeeps(ws, head, t, avail);
    assert Blank(t.top.frame) == Blank(w.t.top.frame);
    assert forall j <- DeclaredIn(tail) :: j in DeclaredIn(ns);
    assert avail + Declared(head) == avail;
    WalkInKeeps(ws, tail, w.t, head.end, hi, avail);
    if k in WritesIn(tail) {
      ScopesMark(ws, tail, w.t, head.end, hi, avail, k);
    } else {
      ScopeNotes(ws, head, t, avail, k);
      if NeverTraced(ws, w.t.top, k) {
        NeverTracedIsUnknown(ws, w.t.top, k);
      }
      KnownGrows(w.t.top, r.t.top, WritesIn(tail), k);
    }
  }

  /** What a scope's body writes is marked in the scope's own frame. */
  lemma BodyMarks(ws: set<Site>, n: Node, t: Tracker, avail: set<Key>, k: Key)
    requires n.Scope? && Placed(ws, n, t, avail) && NothingLost(Walk(ws, n, t).log)
    requires k in avail && k in WritesIn(n.body)
    ensures Marked(BodyWalked(ws, n, t).top, k) || !Known(BodyWalked(ws, n, t).top, k) || k in BodyWalked(ws, n, t).captured
  {
    hide Sane, Walk, SitesIn, Writes, WritesIn, LitWrites, LitWritesIn, Lookup, Outline, Masked, Claims, Doomed, Live;
    ScopeSteps(ws, n, t, avail);
    PartsLoseNothing(ws, n, t);
    var lo, inner := After(n.header, n.pos), InnerScope(n, avail);
    if IsHeader(n.kind) {
      ScopesMark(ws, n.body, HeaderWalked(ws, n, t), lo, n.end, inner, k);
    } else {
      WalkInNotes(ws, n.body, HeaderWalked(ws, n, t), lo, n.end, inner, k);
      if NeverTraced(ws, BodyWalked(ws, n, t).top, k) {
        NeverTracedIsUnknown(ws, BodyWalked(ws, n, t).top, k);
      }
    }
  }

  // ----- leaving

  /** The binding of a variable a scope did not write is the enclosing scope's. */
  lemma LeaveLookup(ws: set<Site>, r: Tracker, k: Key)
    requires r.top.Push? && k !in WrittenKeys(r.top.frame) && !r.top.frame.kind.LitK?
    requires !IsRepeatable(r.top.frame.kind)
    ensures Lookup(ws, Leave(r), k) == Lookup(ws, r, k)
  {
    assert k !in Outward(r.top.frame);
    TopLookup(ws, r.top.parent, LeaveInto(r.top.parent.frame, r.top.frame), k, k in r.captured);
  }

  lemma LeaveMarked(ws: set<Site>, r: Tracker, k: Key)
    requires r.top.Push? && Marked(r.top, k) && k !in r.top.frame.declares && !r.top.frame.kind.RootK?
    requires !IsBareBlock(r.top.frame, r.top.parent.frame) && !IsBranch(r.top.frame, r.top.parent.frame)
    ensures !Claims(ws, Leave(r), k)
  {
    assert k in Outward(r.top.frame);
    assert Leave(r).top.frame.values[k] == PATH_DEPENDENT;
  }

  lemma LeaveUnknown(ws: set<Site>, r: Tracker, k: Key)
    requires r.top.Push? && !Known(r.top, k) && !Marked(r.top, k)
    ensures !Claims(ws, Leave(r), k)
  {
    assert !Known(r.top.parent, k);
    assert k !in Outward(r.top.frame);
    assert !Known(Leave(r).top, k);
    LookupKnown(ws, Leave(r).top, k, k in Leave(r).captured);
  }

  /** After a statement that may not have run what it holds, nothing it writes there is claimed. */
  lemma MergeClaims(ws: set<Site>, n: Node, t: Tracker, avail: set<Key>, k: Key)
    requires n.Scope? && Placed(ws, n, t, avail) && !n.kind.LitK? && NothingLost(Walk(ws, n, t).log)
    requires !IsBranching(t.top.frame.kind) && !IsBareBlock(NewFrame(n, map[]), t.top.frame)
    requires k in avail && Claims(ws, Walk(ws, n, t).t, k)
    ensures k !in WritesIn(n.body)
    ensures k !in WritesIn(n.header) ==> Lookup(ws, Walk(ws, n, t).t, k) == Lookup(ws, t, k)
    ensures k in WritesIn(n.header) ==> IsHeader(n.kind) && Lookup(ws, Walk(ws, n, t).t, k) == Lookup(ws, HeaderWalked(ws, n, t), k)
  {
    ScopeSteps(ws, n, t, avail);
    PartsLoseNothing(ws, n, t);
    ClaimedIsFree(ws, Walk(ws, n, t).t, k);
    var h, r := HeaderWalked(ws, n, t), BodyWalked(ws, n, t);
    assert Blank(t.top.frame) == Blank(r.top.parent.frame);
    if Marked(r.top, k) {
      LeaveMarked(ws, r, k);
    }
    if k in WritesIn(n.body) {
      BodyMarks(ws, n, t, avail, k);
      LeaveUnknown(ws, r, k);
    } else if k in WritesIn(n.header) {
      WalkInNotes(ws, n.header, Enter(t, n), n.pos, n.end, avail, k);
      if NeverTraced(ws, h.top, k) {
        NeverTracedIsUnknown(ws, h.top, k);
      }
      KnownGrows(h.top, r.top, WritesIn(n.body), k);
      if !IsHeader(n.kind) {
        if Noted(h.top, k) {
          NotedGrows(h.top, r.top, WritesIn(n.body), k);
        }
        LeaveUnknown(ws, r, k);
      } else {
        LeaveLookup(ws, r, k);
        UnwrittenKeepsBinding(ws, h, r, WritesIn(n.body), k);
      }
    } else {
      UnwrittenKeepsBinding(ws, t, Walk(ws, n, t).t, Writes(n), k);
    }
  }

  /** A bare block always ran: its claims stand. */
  lemma CarryClaims(ws: set<Site>, n: Node, t: Tracker, avail: set<Key>, k: Key)
    requires n.Scope? && Placed(ws, n, t, avail)
    requires IsBareBlock(NewFrame(n, map[]), t.top.frame)
    requires k in avail
    ensures Lookup(ws, Walk(ws, n, t).t, k) == Lookup(ws, BodyWalked(ws, n, t), k)
    ensures Doomed(ws, BodyWalked(ws, n, t), k) ==> Doomed(ws, Walk(ws, n, t).t, k)
  {
    hide WellFormedIn, WalkIn, Sites, Grew, Traceable;
    ScopeSteps(ws, n, t, avail);
    var r := BodyWalked(ws, n, t);
    assert Blank(t.top.frame) == Blank(r.top.parent.frame);
    KilledByOutline(ws, r.top.parent, Leave(r).top, k);
    LeaveTouches(r, k);
    if !Marked(r.top, k) {
      LeaveLookup(ws, r, k);
    } else {
      assert k in r.top.frame.values && k in Leave(r).top.frame.values;
    }
  }

  // ----- branches

  /** A walk reaches no further out than the scope it is in, or, from a header, the one around it. */
  predicate SameBelow(s: Stack, r: Stack) {
    && s.frame.kind == r.frame.kind && s.Push? == r.Push?
    && (s.Push? ==>
          if IsHeader(s.frame.kind) then s.parent.Push? == r.parent.Push? && (s.parent.Push? ==> s.parent.parent == r.parent.parent)
          else s.parent == r.parent)
  }

  lemma {:induction false} TargetsReach(ws: set<Site>, before: Tracker, t: Tracker, pos: Pos, targets: seq<Target>)
    ensures SameBelow(t.top, WriteTargets(ws, before, t, pos, targets).top)
    decreases |targets|
  {
    if targets != [] {
      TargetsReach(ws, before, WriteTarget(ws, before, t, pos, targets[0]), pos, targets[1..]);
    }
  }

  lemma {:induction false} WalkReaches(ws: set<Site>, n: Node, t: Tracker)
    ensures SameBelow(t.top, Walk(ws, n, t).t.top)
    ensures n.Scope? && t.top.Push? ==> Walk(ws, n, t).t.top.Push? && Walk(ws, n, t).t.top.parent == t.top.parent
    decreases n, 1
  {
    match n
    case Call(_, _, _, inner) => WalkInReaches(ws, inner, t);
    case Assign(pos, _, _, targets, inner) =>
      WalkInReaches(ws, inner, t);
      TargetsReach(ws, t, WalkIn(ws, inner, t).t, pos, targets);
    case Scope(_, _, _, _, header, body) =>
      WalkInReaches(ws, header, Enter(t, n));
      WalkInReaches(ws, body, HeaderWalked(ws, n, t));
  }

  lemma {:induction false} WalkInReaches(ws: set<Site>, ns: Nodes, t: Tracker)
    ensures SameBelow(t.top, WalkIn(ws, ns, t).t.top)
    decreases ns, 0
  {
    if ns.Cons? {
      WalkReaches(ws, ns.head, t);
      WalkInReaches(ws, ns.tail, Walk(ws, ns.head, t).t);
    }
  }

  /** A branch leaves its sibling branches the bindings from before it. */
  lemma BranchKeepsValues(ws: set<Site>, n: Node, t: Tracker, avail: set<Key>)
    requires n.Scope? && (n.kind.BlockK? || n.kind.ClauseK?)
    requires IsBranching(t.top.frame.kind) && Placed(ws, n, t, avail)
    ensures Walk(ws, n, t).t.top.frame.values == t.top.frame.values
    ensures t.top.Push? ==> Walk(ws, n, t).t.top.Push? && Walk(ws, n, t).t.top.parent == t.top.parent
    ensures Walk(ws, n, t).t.top.frame.fallthroughWrites ==
              if FallsThrough(NewFrame(n, map[])) then Outward(BodyWalked(ws, n, t).top.frame) else {}
  {
    hide WellFormedIn, Sane, SitesIn, Writes, WritesIn, LitWrites, LitWritesIn, Lookup;
    ScopeSteps(ws, n, t, avail);
    WalkInReaches(ws, n.header, Enter(t, n));
    WalkInReaches(ws, n.body, HeaderWalked(ws, n, t));
    WalkReaches(ws, n, t);
    var r := BodyWalked(ws, n, t);
    assert r.top.parent == Enter(t, n).top.parent;
    assert r.top.parent.frame == t.top.frame.(fallthroughWrites := {});
  }

  /** A sibling branch that did not fall through claims nothing more. */
  lemma SkippedClaims(ws: set<Site>, n: Node, t: Tracker, avail: set<Key>, k: Key)
    requires n.Scope? && (n.kind.BlockK? || n.kind.ClauseK?)
    requires IsBranching(t.top.frame.kind) && Placed(ws, n, t, avail)
    requires k in avail && Claims(ws, Walk(ws, n, t).t, k)
    ensures Lookup(ws, Walk(ws, n, t).t, k) == Lookup(ws, t, k)
  {
    var r := Walk(ws, n, t).t;
    ScopeSteps(ws, n, t, avail);
    BranchKeepsValues(ws, n, t, avail);
    assert Blank(t.top.frame) == Blank(r.top.frame);
    if k in r.captured {
      DependentIsUnresolved(ws, r.top, k);
    }
    assert r.top == OnTop(t.top, r.top.frame);
    TopLookup(ws, t.top, r.top.frame, k, false);
  }

  /** The clause that follows one that fell through claims nothing that one wrote. */
  lemma FellThroughClaims(ws: set<Site>, n: Node, t: Tracker, avail: set<Key>, k: Key)
    requires n.Scope? && FallsThrough(NewFrame(n, map[]))
    requires IsBranching(t.top.frame.kind) && Placed(ws, n, t, avail) && NothingLost(Walk(ws, n, t).log)
    requires k in avail && Claims(ws, Masked(Walk(ws, n, t).t), k)
    ensures k !in Writes(n)
    ensures Lookup(ws, Masked(Walk(ws, n, t).t), k) == Lookup(ws, Masked(t), k)
  {
    hide WellFormed, WellFormedIn, Walk;
    var r := Walk(ws, n, t).t;
    MaskedLookup(ws, r, k);
    BranchKeepsValues(ws, n, t, avail);
    SkippedClaims(ws, n, t, avail, k);
    LookupKnown(ws, r.top, k, k in r.captured);
    ClaimedIsFree(ws, Masked(r), k);
    if k in Writes(n) {
      ScopeNotes(ws, n, t, avail, k);
      if NeverTraced(ws, r.top, k) {
        NeverTracedIsUnknown(ws, r.top, k);
      }
    }
    ScopeSteps(ws, n, t, avail);
    assert Enter(t, n).top.frame.values.Keys == t.top.frame.fallthroughWrites;
    assert FrameGrew(Enter(t, n).top.frame, BodyWalked(ws, n, t).top.frame, Writes(n));
    MaskedLookup(ws, t, k);
  }

  /** And what it did not write the clause that follows reads as it did. */
  lemma FellThroughKeeps(ws: set<Site>, n: Node, t: Tracker, avail: set<Key>, k: Key)
    requires n.Scope? && FallsThrough(NewFrame(n, map[]))
    requires IsBranching(t.top.frame.kind) && Placed(ws, n, t, avail)
    requires k in avail && k !in Writes(n)
    ensures Lookup(ws, Masked(Walk(ws, n, t).t), k) == Lookup(ws, Masked(t), k)
  {
    hide WellFormed, WellFormedIn, Walk, WalkIn, Sites, SitesIn, Writes, WritesIn, Lookup, Masked;
    var e, r, u := Enter(t, n), BodyWalked(ws, n, t), Walk(ws, n, t).t;
    ScopeSteps(ws, n, t, avail);
    BranchKeepsValues(ws, n, t, avail);
    MaskedLookup(ws, t, k);
    MaskedLookup(ws, u, k);
    UnwrittenKeepsBinding(ws, t, u, Writes(n), k);
    assert FrameGrew(e.top.frame, r.top.frame, Writes(n));
    assert u.top.frame.fallthroughWrites == Outward(r.top.frame);
  }

  // ----- alternatives of every kind, an else-if among them

  lemma {:induction false} ScopesReach(ws: set<Site>, ns: Nodes, t: Tracker)
    requires AreScopes(ns) && t.top.Push?
    ensures WalkIn(ws, ns, t).t.top.Push? && WalkIn(ws, ns, t).t.top.parent == t.top.parent
    decreases ns
  {
    if ns.Cons? {
      WalkReaches(ws, ns.head, t);
      ScopesReach(ws, ns.tail, Walk(ws, ns.head, t).t);
    }
  }

  lemma ParentGrew(s: Stack, r: Stack, w: set<Key>)
    requires StackGrew(s, r, w) && s.Push?
    ensures r.Push? && FrameGrew(s.parent.frame, r.parent.frame, w)
  {
    assert StackGrew(s.parent, r.parent, w);
  }

  lemma ElseIfKeepsValues(ws: set<Site>, n: Node, t: Tracker, avail: set<Key>, k: Key)
    requires n.Scope? && n.kind.IfK? && IsBranching(t.top.frame.kind) && Placed(ws, n, t, avail)
    requires k !in WritesIn(n.header)
    ensures k in Walk(ws, n, t).t.top.frame.values <==> k in t.top.frame.values
    ensures k in t.top.frame.values ==> Walk(ws, n, t).t.top.frame.values[k] == t.top.frame.values[k]
  {
    var e, h, r := Enter(t, n), HeaderWalked(ws, n, t), BodyWalked(ws, n, t);
    ScopeSteps(ws, n, t, avail);
    AlternativesAreScopes(n.body);
    assert t.top.frame.kind.IfK?;
    hide WellFormed, WellFormedIn, Sane, Sites, SitesIn, Writes, WritesIn, LitWrites, LitWritesIn, Lookup, WalkIn, FrameGrew, StackGrew, Placed,
         PlacedIn, AreScopes, Tracks;
    ScopesReach(ws, n.body, h);
    ParentGrew(e.top, h.top, WritesIn(n.header));
    FrameKeeps(e.top.parent.frame, h.top.parent.frame, WritesIn(n.header), k);
    assert r.top.parent == h.top.parent;
    assert Walk(ws, n, t).t == Leave(r);
    assert r.top.frame.kind == IfK && h.top.parent.frame.kind == IfK;
  }

  lemma FrameKeeps(f: Frame, g: Frame, w: set<Key>, k: Key)
    requires FrameGrew(f, g, w) && k !in w
    ensures (k in f.values <==> k in g.values) && (k in f.values ==> g.values[k] == f.values[k])
  {
  }

  /** What holds after an alternative whose siblings follow: only an else-if's header may have written there. */
  lemma AlternativeKeepsValues(ws: set<Site>, n: Node, t: Tracker, avail: set<Key>, k: Key)
    requires n.Scope? && !n.kind.LitK? && IsBranching(t.top.frame.kind) && Placed(ws, n, t, avail)
    requires k !in WritesIn(n.header)
    ensures k in Walk(ws, n, t).t.top.frame.values <==> k in t.top.frame.values
    ensures k in t.top.frame.values ==> Walk(ws, n, t).t.top.frame.values[k] == t.top.frame.values[k]
  {
    if n.kind.IfK? {
      ElseIfKeepsValues(ws, n, t, avail, k);
    } else {
      BranchKeepsValues(ws, n, t, avail);
    }
  }

  lemma AlternativesAreScopes(ns: Nodes)
    requires AreAlternatives(ns)
    ensures AreScopes(ns)
  {
  }

  /** After any alternative, its siblings claim of a variable its header did not write what they would have before. */
  lemma AlternativeClaims(ws: set<Site>, n: Node, t: Tracker, avail: set<Key>, k: Key)
    requires n.Scope? && !n.kind.LitK? && IsBranching(t.top.frame.kind) && Placed(ws, n, t, avail)
    requires k in avail && k !in WritesIn(n.header) && Claims(ws, Walk(ws, n, t).t, k)
    ensures Lookup(ws, Walk(ws, n, t).t, k) == Lookup(ws, t, k)
  {
    hide WellFormed, Walk;
    var r := Walk(ws, n, t).t;
    AlternativeKeepsValues(ws, n, t, avail, k);
    WalkReaches(ws, n, t);
    ScopeSteps(ws, n, t, avail);
    assert Blank(t.top.frame) == Blank(r.top.frame);
    if k in r.captured {
      DependentIsUnresolved(ws, r.top, k);
    }
    assert r.top == OnTop(t.top, r.top.frame);
    TopLookup(ws, t.top, r.top.frame, k, false);
  }

  // ----- loops

  /** A write lands after the start of its node, inside it. */
  lemma {:induction false} WriteHasSite(n: Node, avail: set<Key>, k: Key) returns (site: Site)
    requires WellFormed(n, avail) && k in Writes(n)
    ensures site.key == k && site in Sites(n) && n.pos < site.at <= n.end
    ensures forall j <- avail :: j.from < site.at
    decreases n, 1
  {
    match n
    case Call(pos, end, registrar, inner) =>
      site := WriteInHasSite(inner, if registrar.Some? then pos + 1 else pos, end, avail, k);
    case Assign(pos, end, _, targets, inner) =>
      if k in WritesIn(inner) {
        site := WriteInHasSite(inner, pos, end, avail, k);
      } else {
        var x :| x in targets && x.key == k;
        site := Site(x.key, end, !x.rhs.Opaque?);
        assert site in (set t | t in targets :: Site(t.key, end, !t.rhs.Opaque?));
      }
    case Scope(_, pos, end, _, header, body) =>
      AfterIsAhead(header, pos, end, avail);
      if k in WritesIn(header) {
        site := WriteInHasSite(header, pos, end, avail, k);
      } else {
        site := WriteInHasSite(body, After(header, pos), end, InnerScope(n, avail), k);
      }
  }

  lemma {:induction false} WriteInHasSite(ns: Nodes, lo: Pos, hi: Pos, avail: set<Key>, k: Key) returns (site: Site)
    requires WellFormedIn(ns, lo, hi, avail) && k in WritesIn(ns)
    ensures site.key == k && site in SitesIn(ns) && lo < site.at <= hi
    ensures forall j <- avail :: j.from < site.at
    decreases ns, 0
  {
    if k in Writes(ns.head) {
      site := WriteHasSite(ns.head, avail, k);
    } else {
      site := WriteInHasSite(ns.tail, ns.head.end, hi, avail + Declared(ns.head), k);
    }
  }

  lemma {:induction false} AfterIsAhead(ns: Nodes, lo: Pos, hi: Pos, avail: set<Key>)
    requires WellFormedIn(ns, lo, hi, avail)
    ensures lo <= After(ns, lo) <= hi
    decreases ns
  {
    if ns.Cons? {
      AfterIsAhead(ns.tail, ns.head.end, hi, avail + Declared(ns.head));
    }
  }

  /** A loop or closure outlived by what it writes kills it. */
  lemma RepeatableKills(ws: set<Site>, n: Node, avail: set<Key>, k: Key)
    requires n.Scope? && IsRepeatable(n.kind) && WellFormed(n, avail) && Sites(n) <= ws
    requires k in Writes(n) && (k in avail || (n.kind.ForK? && k in n.declares && k in WritesIn(n.body)))
    ensures ReassignedWhileRunning(ws, NewFrame(n, map[]), k)
  {
    if k in avail {
      var site := WriteHasSite(n, avail, k);
      assert site in ws;
    } else {
      AfterIsAhead(n.header, n.pos, n.end, avail);
      assert k in KeySet(n.declares);
      var site := WriteInHasSite(n.body, After(n.header, n.pos), n.end, InnerScope(n, avail), k);
      assert site in ws;
    }
  }

  /** A variable killed where the walk stands is resolved at no registration it goes on to meet. */
  lemma {:induction false} KilledStaysUnresolved(ws: set<Site>, n: Node, t: Tracker, avail: set<Key>, k: Key)
    requires WellFormed(n, avail) && Fits(t.top.frame.kind, n) && Sane(ws, t.top, avail)
    requires forall j <- Declared(n) :: Declares(t.top.frame, j)
    requires k in avail && KilledWithin(ws, t.top, k)
    ensures NoneResolved(Walk(ws, n, t).log, k)
    decreases n, 1
  {
    match n
    case Call(pos, end, registrar, inner) =>
      ExpressionsFit(t.top.frame.kind, inner);
      ExpressionsDeclareNothing(inner);
      DoomedIsUnresolved(ws, t, k, avail);
      KilledStaysUnresolvedIn(ws, inner, t, if registrar.Some? then pos + 1 else pos, end, avail, k);
    case Assign(pos, end, _, targets, inner) =>
      ExpressionsFit(t.top.frame.kind, inner);
      ExpressionsDeclareNothing(inner);
      HazardsRegisterNothing(ws, t, pos, targets, k);
      KilledStaysUnresolvedIn(ws, inner, t, pos, end, avail, k);
    case Scope(_, pos, end, _, header, body) =>
      PartsFit(n);
      ScopeDeclares(n, avail);
      EnterKeepsSane(ws, t, n, avail);
      var e, h, inner := Enter(t, n), HeaderWalked(ws, n, t), InnerScope(n, avail);
      KilledByOutline(ws, t.top, e.top.parent, k);
      WalkInKeeps(ws, header, e, pos, end, avail);
      SaneWidens(ws, h.top, avail + DeclaredIn(header), inner);
      assert Blank(e.top.frame) == Blank(h.top.frame);
      KilledByOutline(ws, e.top, h.top, k);
      KilledStaysUnresolvedIn(ws, header, e, pos, end, avail, k);
      KilledStaysUnresolvedIn(ws, body, h, After(header, pos), end, inner, k);
  }

  predicate NoneResolved(log: seq<Entry>, k: Key) {
    forall e <- log :: e.Registration? && e.key == k ==> !IsResolved(e.prefix)
  }

  lemma {:induction false} HazardsRegisterNothing(ws: set<Site>, t: Tracker, pos: Pos, targets: seq<Target>, k: Key)
    ensures NoneResolved(Hazards(ws, t, pos, targets), k)
    decreases |targets|
  {
    if targets != [] {
      HazardsRegisterNothing(ws, t, pos, targets[1..], k);
    }
  }

  lemma {:induction false} KilledStaysUnresolvedIn(ws: set<Site>, ns: Nodes, t: Tracker, lo: Pos, hi: Pos, avail: set<Key>, k: Key)
    requires WellFormedIn(ns, lo, hi, avail) && FitIn(t.top.frame.kind, ns) && Sane(ws, t.top, avail)
    requires forall j <- DeclaredIn(ns) :: Declares(t.top.frame, j)
    requires k in avail && KilledWithin(ws, t.top, k)
    ensures NoneResolved(WalkIn(ws, ns, t).log, k)
    decreases ns, 0
  {
    if ns.Cons? {
      var w := Walk(ws, ns.head, t).t;
      assert forall j <- Declared(ns.head) + DeclaredIn(ns.tail) :: j in DeclaredIn(ns);
      WalkKeeps(ws, ns.head, t, avail);
      assert Blank(t.top.frame) == Blank(w.top.frame);
      KilledByOutline(ws, t.top, w.top, k);
      KilledStaysUnresolved(ws, ns.head, t, avail, k);
      forall j | j in DeclaredIn(ns.tail) ensures Declares(w.top.frame, j) {
        assert j in DeclaredIn(ns) && Declares(t.top.frame, j);
      }
      hide Sane, WellFormed, Walk, KilledWithin, Lookup, Writes;
      KilledStaysUnresolvedIn(ws, ns.tail, w, ns.head.end, hi, avail + Declared(ns.head), k);
    }
  }

  /** Nowhere inside a loop or closure is a variable resolved that it writes and that outlives it, above the write neither. */
  lemma RepeatableIsUnresolved(ws: set<Site>, n: Node, t: Tracker, avail: set<Key>, k: Key)
    requires n.Scope? && IsRepeatable(n.kind) && Placed(ws, n, t, avail)
    requires k in avail && k in Writes(n)
    ensures NoneResolved(Walk(ws, n, t).log, k)
  {
    var e, h := Enter(t, n), HeaderWalked(ws, n, t);
    RepeatableKills(ws, n, avail, k);
    ScopeSteps(ws, n, t, avail);
    assert ReassignedWhileRunning(ws, e.top.frame, k);
    KilledByOutline(ws, e.top, h.top, k);
    EnterKeepsSane(ws, t, n, avail);
    KilledStaysUnresolvedIn(ws, n.header, e, n.pos, n.end, avail, k);
    KilledStaysUnresolvedIn(ws, n.body, h, After(n.header, n.pos), n.end, InnerScope(n, avail), k);
  }

  /** Nor is a variable of a three-clause loop resolved after its init, where the loop goes on to write it. */
  lemma LoopVariableIsUnresolved(ws: set<Site>, n: Node, t: Tracker, avail: set<Key>, k: Key)
    requires n.Scope? && n.kind.ForK? && Placed(ws, n, t, avail)
    requires k in n.declares && k in WritesIn(n.body)
    ensures NoneResolved(WalkIn(ws, n.body, HeaderWalked(ws, n, t)).log, k)
  {
    var e, h := Enter(t, n), HeaderWalked(ws, n, t);
    RepeatableKills(ws, n, avail, k);
    ScopeSteps(ws, n, t, avail);
    assert ReassignedWhileRunning(ws, e.top.frame, k);
    KilledByOutline(ws, e.top, h.top, k);
    assert k in KeySet(n.declares);
    KilledStaysUnresolvedIn(ws, n.body, h, After(n.header, n.pos), n.end, InnerScope(n, avail), k);
  }
}
