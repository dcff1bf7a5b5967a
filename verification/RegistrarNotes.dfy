/**
 Every write the walk meets is noted where it must be: in the scope it happened
 in, in every scope around it that may not have run it, and for good when a
 function literal made it.
 */
module RegistrarNotes {
  import opened Wrappers
  import opened RegistrarSyntax
  import opened RegistrarTracker
  import opened RegistrarStructure
  import opened RegistrarInvariants

  /** No write in a function literal goes unrecorded. */
  predicate NothingLost(log: seq<Entry>) {
    forall e <- log :: !e.LostWrite?
  }

  /** Nor is any group opened on a variable the walk knows nothing of. */
  predicate AllRegistrations(log: seq<Entry>) {
    forall e <- log :: e.Registration?
  }

  predicate Marked(s: Stack, k: Key) {
    k in WrittenKeys(s.frame)
  }

  predicate Noted(s: Stack, k: Key) {
    Marked(s, k) || (LandsOutside(s, k) && Marked(s.parent, k))
  }

  /** k never becomes a registrar. */
  predicate NeverTraced(ws: set<Site>, s: Stack, k: Key) {
    !Traceable(ws, k) && !Touched(s, k)
  }

  /** The write was noted, or was one to a variable unknown as a registrar: outside every closure, or for good. */
  predicate Accounted(ws: set<Site>, before: Stack, after: Stack, k: Key) {
    Noted(after, k) || (!Known(after, k) && !CrossesLiteral(before, k)) || NeverTraced(ws, after, k)
  }

  lemma NeverTracedIsUnknown(ws: set<Site>, s: Stack, k: Key)
    requires NeverTraced(ws, s, k)
    ensures !Known(s, k) && !Marked(s, k)
  {
    if Known(s, k) {
      KnownIsTouched(s, k);
    }
  }

  lemma NotedGrows(s: Stack, r: Stack, w: set<Key>, k: Key)
    requires StackGrew(s, r, w) && Noted(s, k)
    ensures Noted(r, k)
  {
    assert Blank(s.frame) == Blank(r.frame);
  }

  lemma SetNotes(s: Stack, k: Key, v: Prefix)
    ensures Noted(SetIn(s, k, v), k)
  {
  }

  lemma {:induction false} SetLeaves(s: Stack, k: Key, v: Prefix, j: Key)
    requires j != k
    ensures Known(SetIn(s, k, v), j) == Known(s, j)
  {
  }

  lemma {:induction false} TargetsNote(ws: set<Site>, before: Tracker, t: Tracker, pos: Pos, targets: seq<Target>, avail: set<Key>, k: Key)
    requires Sane(ws, t.top, avail) && TargetKeys(targets) <= avail
    requires forall j <- TargetKeys(targets) :: j.from <= pos || Declares(t.top.frame, j)
    ensures (exists x <- targets :: x.key == k && Recorded(ws, before, x)) ==> Noted(WriteTargets(ws, before, t, pos, targets).top, k)
    ensures Noted(t.top, k) ==> Noted(WriteTargets(ws, before, t, pos, targets).top, k)
    ensures !(exists x <- targets :: x.key == k && Recorded(ws, before, x))
            ==> Known(WriteTargets(ws, before, t, pos, targets).top, k) == Known(t.top, k)
    decreases |targets|
  {
    if targets != [] {
      var x := targets[0];
      var r := WriteTarget(ws, before, t, pos, x);
      assert x.key in TargetKeys(targets);
      var v := RhsBinding(ws, before, x.rhs).value;
      SetKeepsSane(ws, t.top, x.key, pos, v, avail);
      StackGrewReflexive(t.top, {x.key});
      assert Blank(t.top.frame) == Blank(r.top.frame);
      if Recorded(ws, before, x) && x.key == k {
        SetNotes(t.top, k, WrittenValue(t.top, k, pos, v));
      } else if Recorded(ws, before, x) {
        SetLeaves(t.top, x.key, WrittenValue(t.top, x.key, pos, v), k);
      }
      if Noted(t.top, k) {
        NotedGrows(t.top, r.top, {x.key}, k);
      }
      TargetsNote(ws, before, r, pos, targets[1..], avail, k);
      assert forall y <- targets :: y == x || y in targets[1..];
      assert forall y <- targets[1..] :: y in targets;
    }
  }

  lemma NothingLostSplit(a: seq<Entry>, b: seq<Entry>)
    requires NothingLost(a + b)
    ensures NothingLost(a) && NothingLost(b)
  {
    assert forall e <- a :: e in a + b;
    assert forall e <- b :: e in a + b;
  }

  lemma AllRegistrationsSplit(a: seq<Entry>, b: seq<Entry>)
    requires AllRegistrations(a + b)
    ensures AllRegistrations(a) && AllRegistrations(b)
  {
    assert forall e <- a :: e in a + b;
    assert forall e <- b :: e in a + b;
  }

  lemma HazardsOfTarget(ws: set<Site>, t: Tracker, pos: Pos, x: Target)
    ensures LosesWrite(ws, t, x) ==> LostWrite(pos, x.key) in TargetHazards(ws, t, pos, x)
    ensures x.rhs.Group? && x.key !in t.captured && Lookup(ws, t, x.rhs.parent).None?
            ==> UnknownParent(pos, x.rhs.parent, x.key) in TargetHazards(ws, t, pos, x)
  {
    hide Lookup, LosesWrite;
    var own := TargetHazards(ws, t, pos, x);
    if LosesWrite(ws, t, x) {
      assert own[|own| - 1] == LostWrite(pos, x.key);
    }
    if x.rhs.Group? && x.key !in t.captured && Lookup(ws, t, x.rhs.parent).None? {
      assert own[0] == UnknownParent(pos, x.rhs.parent, x.key);
    }
  }

  lemma {:induction false} LostIsLogged(ws: set<Site>, t: Tracker, pos: Pos, targets: seq<Target>, x: Target)
    requires x in targets && NothingLost(Hazards(ws, t, pos, targets))
    ensures !LosesWrite(ws, t, x)
    decreases |targets|
  {
    var own, rest := TargetHazards(ws, t, pos, targets[0]), Hazards(ws, t, pos, targets[1..]);
    NothingLostSplit(own, rest);
    if x == targets[0] {
      HazardsOfTarget(ws, t, pos, x);
    } else {
      assert x in targets[1..];
      LostIsLogged(ws, t, pos, targets[1..], x);
    }
  }

  lemma {:induction false} UnknownIsLogged(ws: set<Site>, t: Tracker, pos: Pos, targets: seq<Target>, x: Target)
    requires x in targets && AllRegistrations(Hazards(ws, t, pos, targets))
    ensures x.rhs.Group? && x.key !in t.captured ==> Lookup(ws, t, x.rhs.parent).Some?
    decreases |targets|
  {
    var own, rest := TargetHazards(ws, t, pos, targets[0]), Hazards(ws, t, pos, targets[1..]);
    AllRegistrationsSplit(own, rest);
    if x == targets[0] {
      HazardsOfTarget(ws, t, pos, x);
    } else {
      assert x in targets[1..];
      UnknownIsLogged(ws, t, pos, targets[1..], x);
    }
  }

  /** A scope's note reaches the scope around it when it is left. */
  lemma LeaveNotes(ws: set<Site>, t: Tracker, avail: set<Key>, k: Key)
    requires t.top.Push? && Sane(ws, t.top, avail)
    requires k !in t.top.frame.declares
    ensures Noted(t.top, k) ==> Marked(Leave(t).top, k)
    ensures !Noted(t.top, k) && !Known(t.top, k) ==> !Known(Leave(t).top, k)
    ensures t.top.frame.kind.LitK? && Noted(t.top, k) ==> k in Leave(t).captured
    ensures FallsThrough(t.top.frame) && Noted(t.top, k) ==> k in Leave(t).top.frame.fallthroughWrites
  {
    assert !Known(t.top, k) ==> !Known(t.top.parent, k);
    assert !Noted(t.top, k) ==> k !in Outward(t.top.frame);
  }

  lemma StaysNeverTraced(ws: set<Site>, n: Node, t: Tracker, k: Key)
    requires Sites(n) <= ws
    ensures NeverTraced(ws, t.top, k) ==> NeverTraced(ws, Walk(ws, n, t).t.top, k)
  {
    WalkTracks(ws, n, t);
  }

  lemma StaysNeverTracedIn(ws: set<Site>, ns: Nodes, t: Tracker, k: Key)
    requires SitesIn(ns) <= ws
    ensures NeverTraced(ws, t.top, k) ==> NeverTraced(ws, WalkIn(ws, ns, t).t.top, k)
  {
    WalkInTracks(ws, ns, t);
  }

  /** A write to an outer variable is accounted for in the scope it stands in. */
  lemma {:induction false} WalkNotes(ws: set<Site>, n: Node, t: Tracker, avail: set<Key>, k: Key)
    requires WellFormed(n, avail) && Fits(t.top.frame.kind, n) && Sane(ws, t.top, avail) && Sites(n) <= ws
    requires forall j <- Declared(n) :: Declares(t.top.frame, j)
    requires NothingLost(Walk(ws, n, t).log)
    requires k in avail && k in Writes(n)
    ensures k in Walk(ws, n, t).t.captured || Accounted(ws, t.top, Walk(ws, n, t).t.top, k)
    decreases n, 2
  {
    match n
    case Call(pos, end, registrar, inner) =>
      ExpressionsFit(t.top.frame.kind, inner);
      ExpressionsDeclareNothing(inner);
      var own := if registrar.Some? then [Registration(pos, registrar.value, Lookup(ws, t, registrar.value))] else [];
      NothingLostSplit(own, WalkIn(ws, inner, t).log);
      WalkInNotes(ws, inner, t, if registrar.Some? then pos + 1 else pos, end, avail, k);
    case Assign(_, _, _, _, _) =>
      AssignNotes(ws, n, t, avail, k);
    case Scope(_, _, _, _, _, _) =>
      ScopeNotes(ws, n, t, avail, k);
  }

  lemma {:induction false} AssignNotes(ws: set<Site>, n: Node, t: Tracker, avail: set<Key>, k: Key)
    requires n.Assign? && WellFormed(n, avail) && Fits(t.top.frame.kind, n) && Sane(ws, t.top, avail) && Sites(n) <= ws
    requires forall j <- Declared(n) :: Declares(t.top.frame, j)
    requires NothingLost(Walk(ws, n, t).log)
    requires k in avail && k in Writes(n)
    ensures k in Walk(ws, n, t).t.captured || Accounted(ws, t.top, Walk(ws, n, t).t.top, k)
    decreases n, 1
  {
    ExpressionsFit(t.top.frame.kind, n.inner);
    ExpressionsDeclareNothing(n.inner);
    var w := WalkIn(ws, n.inner, t);
    NothingLostSplit(Hazards(ws, t, n.pos, n.targets), w.log);
    WalkInKeeps(ws, n.inner, t, n.pos, n.end, avail);
    assert avail + DeclaredIn(n.inner) == avail;
    assert Blank(t.top.frame) == Blank(w.t.top.frame);
    var more := avail + Declared(n);
    SaneWidens(ws, w.t.top, avail, more);
    TargetsNote(ws, t, w.t, n.pos, n.targets, more, k);
    TargetsCaptureNothing(ws, t, w.t, n.pos, n.targets);
    KnownGrows(t.top, w.t.top, WritesIn(n.inner), k);
    if k in WritesIn(n.inner) {
      WalkInNotes(ws, n.inner, t, n.pos, n.end, avail, k);
    } else {
      var x :| x in n.targets && x.key == k;
      LostIsLogged(ws, t, n.pos, n.targets, x);
      LookupKnown(ws, t.top, k, k in t.captured);
    }
    StaysNeverTraced(ws, n, t, k);
    if NeverTraced(ws, w.t.top, k) {
      NeverTracedStays(ws, n, t, w.t, k);
    }
  }

  /** What a scope writes to an outer variable is marked in the enclosing scope. */
  lemma {:induction false} ScopeNotes(ws: set<Site>, n: Node, t: Tracker, avail: set<Key>, k: Key)
    requires n.Scope? && WellFormed(n, avail) && Fits(t.top.frame.kind, n) && Sane(ws, t.top, avail) && Sites(n) <= ws
    requires NothingLost(Walk(ws, n, t).log)
    requires k in avail && k in Writes(n)
    ensures Marked(Walk(ws, n, t).t.top, k) || (!Known(Walk(ws, n, t).t.top, k) && !CrossesLiteral(t.top, k))
            || NeverTraced(ws, Walk(ws, n, t).t.top, k) || k in Walk(ws, n, t).t.captured
    ensures n.kind.LitK? ==> Lost(ws, Walk(ws, n, t).t, k)
    ensures n.kind.ClauseK? && n.kind.falls && Known(Walk(ws, n, t).t.top, k) && k !in Walk(ws, n, t).t.captured ==> k in Walk(ws, n, t).t.top.frame.fallthroughWrites
    decreases n, 1
  {
    hide Sane, Grew, WellFormedIn, Lookup, SitesIn, FitIn;
    PartsFit(n);
    ScopeDeclares(n, avail);
    EnterKeepsSane(ws, t, n, avail);
    var e := Enter(t, n);
    var w := WalkIn(ws, n.header, e);
    var r := WalkIn(ws, n.body, w.t);
    NothingLostSplit(w.log, r.log);
    WalkInKeeps(ws, n.header, e, n.pos, n.end, avail);
    var inner := InnerScope(n, avail);
    SaneWidens(ws, w.t.top, avail + DeclaredIn(n.header), inner);
    assert Blank(e.top.frame) == Blank(w.t.top.frame);
    WalkInKeeps(ws, n.body, w.t, After(n.header, n.pos), n.end, inner);
    StackGrewOutline(e.top, w.t.top, WritesIn(n.header));
    CrossesByOutline(e.top, w.t.top, k);
    StackGrewOutline(w.t.top, r.t.top, WritesIn(n.body));
    CrossesByOutline(e.top.parent, t.top, k);
    if k in WritesIn(n.body) {
      WalkInNotes(ws, n.body, w.t, After(n.header, n.pos), n.end, inner, k);
    } else {
      WalkInNotes(ws, n.header, e, n.pos, n.end, avail, k);
      KnownGrows(w.t.top, r.t.top, WritesIn(n.body), k);
      if Noted(w.t.top, k) {
        NotedGrows(w.t.top, r.t.top, WritesIn(n.body), k);
      }
      StaysNeverTracedIn(ws, n.body, w.t, k);
    }
    assert Blank(e.top.frame) == Blank(r.t.top.frame);
    LeaveNotes(ws, r.t, inner + DeclaredIn(n.body), k);
    LeaveTouches(r.t, k);
    if NeverTraced(ws, r.t.top, k) {
      NeverTracedIsUnknown(ws, Leave(r.t).top, k);
    }
  }

  lemma {:induction false} WalkInNotes(ws: set<Site>, ns: Nodes, t: Tracker, lo: Pos, hi: Pos, avail: set<Key>, k: Key)
    requires WellFormedIn(ns, lo, hi, avail) && FitIn(t.top.frame.kind, ns) && Sane(ws, t.top, avail) && SitesIn(ns) <= ws
    requires forall j <- DeclaredIn(ns) :: Declares(t.top.frame, j)
    requires NothingLost(WalkIn(ws, ns, t).log)
    requires k in avail && k in WritesIn(ns)
    ensures k in WalkIn(ws, ns, t).t.captured || Accounted(ws, t.top, WalkIn(ws, ns, t).t.top, k)
    decreases ns, 0
  {
    match ns
    case Cons(head, tail) =>
      forall j | j in Declared(head) + DeclaredIn(tail) ensures Declares(t.top.frame, j) {
        assert j in DeclaredIn(ns);
      }
      var w := Walk(ws, head, t);
      var r := WalkIn(ws, tail, w.t);
      NothingLostSplit(w.log, r.log);
      WalkKeeps(ws, head, t, avail);
      assert Blank(t.top.frame) == Blank(w.t.top.frame);
      assert forall j <- DeclaredIn(tail) :: Declares(t.top.frame, j) ==> Declares(w.t.top.frame, j);
      WalkInKeeps(ws, tail, w.t, head.end, hi, avail + Declared(head));
      StackGrewOutline(t.top, w.t.top, Writes(head));
      CrossesByOutline(t.top, w.t.top, k);
      if k in WritesIn(tail) {
        WalkInNotes(ws, tail, w.t, head.end, hi, avail + Declared(head), k);
      } else {
        WalkNotes(ws, head, t, avail, k);
        KnownGrows(w.t.top, r.t.top, WritesIn(tail), k);
        if Noted(w.t.top, k) {
          NotedGrows(w.t.top, r.t.top, WritesIn(tail), k);
        }
        StaysNeverTracedIn(ws, tail, w.t, k);
      }
  }

  /** Nor does storing the values of an assignment trace what its expressions do not. */
  lemma NeverTracedStays(ws: set<Site>, n: Node, t: Tracker, w: Tracker, k: Key)
    requires n.Assign? && Sites(n) <= ws && w == WalkIn(ws, n.inner, t).t && NeverTraced(ws, w.top, k)
    requires Known(t.top, k) ==> Known(w.top, k)
    ensures NeverTraced(ws, Walk(ws, n, t).t.top, k)
  {
    if Touched(Walk(ws, n, t).t.top, k) {
      TargetsTrack(ws, t, w, n.pos, n.targets, k);
      var x :| x in n.targets && x.key == k && Recorded(ws, t, x);
      RecordedIsTraced(ws, n, t, x);
      NeverTracedIsUnknown(ws, w.top, k);
    }
  }

  // ----- what a function literal writes is captured for good

  lemma {:induction false} LitWritesAreWrites(n: Node)
    ensures LitWrites(n) <= Writes(n)
    decreases n, 1
  {
    match n
    case Call(_, _, _, inner) => LitWritesInAreWrites(inner);
    case Assign(_, _, _, _, inner) => LitWritesInAreWrites(inner);
    case Scope(_, _, _, _, header, body) =>
      LitWritesInAreWrites(header);
      LitWritesInAreWrites(body);
  }

  lemma {:induction false} LitWritesInAreWrites(ns: Nodes)
    ensures LitWritesIn(ns) <= WritesIn(ns)
    decreases ns, 0
  {
    if ns.Cons? {
      LitWritesAreWrites(ns.head);
      LitWritesInAreWrites(ns.tail);
    }
  }

  lemma {:induction false} WalkCaptures(ws: set<Site>, n: Node, t: Tracker, avail: set<Key>, k: Key)
    requires WellFormed(n, avail) && Fits(t.top.frame.kind, n) && Sane(ws, t.top, avail) && Sites(n) <= ws
    requires forall j <- Declared(n) :: Declares(t.top.frame, j)
    requires NothingLost(Walk(ws, n, t).log)
    requires k in avail && k in LitWrites(n)
    ensures Lost(ws, Walk(ws, n, t).t, k)
    decreases n, 1
  {
    match n
    case Call(pos, end, registrar, inner) =>
      ExpressionsFit(t.top.frame.kind, inner);
      ExpressionsDeclareNothing(inner);
      var own := if registrar.Some? then [Registration(pos, registrar.value, Lookup(ws, t, registrar.value))] else [];
      NothingLostSplit(own, WalkIn(ws, inner, t).log);
      WalkInCaptures(ws, inner, t, if registrar.Some? then pos + 1 else pos, end, avail, k);
    case Assign(pos, end, decls, targets, inner) =>
      ExpressionsFit(t.top.frame.kind, inner);
      ExpressionsDeclareNothing(inner);
      NothingLostSplit(Hazards(ws, t, pos, targets), WalkIn(ws, inner, t).log);
      WalkInCaptures(ws, inner, t, pos, end, avail, k);
      TargetsCaptureNothing(ws, t, WalkIn(ws, inner, t).t, pos, targets);
      if NeverTraced(ws, WalkIn(ws, inner, t).t.top, k) {
        WalkInKeeps(ws, inner, t, pos, end, avail);
        KnownGrows(t.top, WalkIn(ws, inner, t).t.top, WritesIn(inner), k);
        NeverTracedStays(ws, n, t, WalkIn(ws, inner, t).t, k);
      }
    case Scope(kind, pos, end, _, header, body) =>
      if kind.LitK? {
        ScopeNotes(ws, n, t, avail, k);
      } else {
        PartsFit(n);
        ScopeDeclares(n, avail);
        EnterKeepsSane(ws, t, n, avail);
        var e := Enter(t, n);
        var w := WalkIn(ws, header, e);
        NothingLostSplit(w.log, WalkIn(ws, body, w.t).log);
        WalkInKeeps(ws, header, e, pos, end, avail);
        var inner := InnerScope(n, avail);
        SaneWidens(ws, w.t.top, avail + DeclaredIn(header), inner);
        assert Blank(e.top.frame) == Blank(w.t.top.frame);
        WalkInKeeps(ws, body, w.t, After(header, pos), end, inner);
        if k in LitWritesIn(header) {
          WalkInCaptures(ws, header, e, pos, end, avail, k);
          StaysNeverTracedIn(ws, body, w.t, k);
        } else {
          WalkInCaptures(ws, body, w.t, After(header, pos), end, inner, k);
        }
        LeaveTouches(WalkIn(ws, body, w.t).t, k);
      }
  }

  lemma {:induction false} TargetsCaptureNothing(ws: set<Site>, before: Tracker, t: Tracker, pos: Pos, targets: seq<Target>)
    ensures WriteTargets(ws, before, t, pos, targets).captured == t.captured
    decreases |targets|
  {
    if targets != [] {
      TargetsCaptureNothing(ws, before, WriteTarget(ws, before, t, pos, targets[0]), pos, targets[1..]);
    }
  }

  lemma {:induction false} WalkInCaptures(ws: set<Site>, ns: Nodes, t: Tracker, lo: Pos, hi: Pos, avail: set<Key>, k: Key)
    requires WellFormedIn(ns, lo, hi, avail) && FitIn(t.top.frame.kind, ns) && Sane(ws, t.top, avail) && SitesIn(ns) <= ws
    requires forall j <- DeclaredIn(ns) :: Declares(t.top.frame, j)
    requires NothingLost(WalkIn(ws, ns, t).log)
    requires k in avail && k in LitWritesIn(ns)
    ensures Lost(ws, WalkIn(ws, ns, t).t, k)
    decreases ns, 0
  {
    match ns
    case Cons(head, tail) =>
      forall j | j in Declared(head) + DeclaredIn(tail) ensures Declares(t.top.frame, j) {
        assert j in DeclaredIn(ns);
      }
      var w := Walk(ws, head, t);
      NothingLostSplit(w.log, WalkIn(ws, tail, w.t).log);
      WalkKeeps(ws, head, t, avail);
      assert Blank(t.top.frame) == Blank(w.t.top.frame);
      assert forall j <- DeclaredIn(tail) :: Declares(t.top.frame, j) ==> Declares(w.t.top.frame, j);
      WalkInKeeps(ws, tail, w.t, head.end, hi, avail + Declared(head));
      if k in LitWrites(head) {
        WalkCaptures(ws, head, t, avail, k);
        StaysNeverTracedIn(ws, tail, w.t, k);
      } else {
        WalkInCaptures(ws, tail, w.t, head.end, hi, avail + Declared(head), k);
      }
  }
}
