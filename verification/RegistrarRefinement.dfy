/**
 The tracker, which acts on positions alone, computes the analysis defined on
 the structure of the code.
 */
module RegistrarRefinement {
  import opened Wrappers
  import opened RegistrarSyntax
  import opened RegistrarTracker
  import opened RegistrarStructure
  import opened RegistrarInvariants
  import opened RegistrarClaims
  import opened RegistrarLazy

  // ----- equal, but for what a captured variable is bound to

  predicate SameFrame(f: Frame, g: Frame, captured: set<Key>) {
    && Blank(f) == Blank(g)
    && f.values.Keys == g.values.Keys
    && (forall k <- f.values :: k !in captured ==> f.values[k] == g.values[k])
    && f.branchWrites == g.branchWrites && f.fallthroughWrites == g.fallthroughWrites
  }

  predicate SameStack(s: Stack, r: Stack, captured: set<Key>) {
    && SameFrame(s.frame, r.frame, captured)
    && s.Push? == r.Push?
    && (s.Push? ==> SameStack(s.parent, r.parent, captured))
  }

  predicate Same(t: Tracker, u: Tracker) {
    t.captured == u.captured && SameStack(t.top, u.top, t.captured)
  }

  lemma {:induction false} SameReflexive(s: Stack, captured: set<Key>)
    ensures SameStack(s, s, captured)
    decreases s
  {
    if s.Push? {
      SameReflexive(s.parent, captured);
    }
  }

  lemma {:induction false} SameTransitive(s: Stack, r: Stack, q: Stack, captured: set<Key>)
    requires SameStack(s, r, captured) && SameStack(r, q, captured)
    ensures SameStack(s, q, captured)
    decreases s
  {
    if s.Push? {
      SameTransitive(s.parent, r.parent, q.parent, captured);
    }
  }

  lemma {:induction false} SameOutline(s: Stack, r: Stack, captured: set<Key>)
    requires SameStack(s, r, captured)
    ensures Outline(s) == Outline(r)
    decreases s
  {
    if s.Push? {
      SameOutline(s.parent, r.parent, captured);
    }
  }

  lemma {:induction false} SameWidens(s: Stack, r: Stack, captured: set<Key>, more: set<Key>)
    requires SameStack(s, r, captured) && captured <= more
    ensures SameStack(s, r, more)
    decreases s
  {
    if s.Push? {
      SameWidens(s.parent, r.parent, captured, more);
    }
  }

  lemma {:induction false} SameLookupFrom(ws: set<Site>, s: Stack, r: Stack, captured: set<Key>, k: Key, dependent: bool)
    requires SameStack(s, r, captured) && (k in captured ==> dependent)
    ensures LookupFrom(ws, s, k, dependent) == LookupFrom(ws, r, k, dependent)
    decreases s
  {
    assert Blank(s.frame) == Blank(r.frame);
    assert ReassignedWhileRunning(ws, s.frame, k) == ReassignedWhileRunning(ws, r.frame, k);
    if s.Push? && k !in s.frame.values {
      SameLookupFrom(ws, s.parent, r.parent, captured, k, dependent || ReassignedWhileRunning(ws, s.frame, k));
    }
  }

  /** A captured variable's binding is never read. */
  lemma SameLookup(ws: set<Site>, t: Tracker, u: Tracker, k: Key)
    requires Same(t, u)
    ensures Lookup(ws, t, k) == Lookup(ws, u, k)
  {
    SameLookupFrom(ws, t.top, u.top, t.captured, k, k in t.captured);
  }

  lemma {:induction false} SameSetAt(s: Stack, r: Stack, captured: set<Key>, height: nat, k: Key, v: Prefix)
    requires SameStack(s, r, captured)
    ensures SameStack(SetAt(s, height, k, v), SetAt(r, height, k, v), captured)
    decreases s
  {
    SameOutline(s, r, captured);
    HeightByOutline(s, r);
    if !(s.Bottom? || Height(s) <= height) {
      SameSetAt(s.parent, r.parent, captured, height, k, v);
    }
  }

  lemma {:induction false} SameApplyDue(t: Tracker, u: Tracker, ps: seq<Pending>, pos: Pos)
    requires Same(t, u)
    ensures Same(ApplyDue(t, ps, pos), ApplyDue(u, ps, pos))
    ensures ApplyDue(t, ps, pos).captured == t.captured
    decreases |ps|
  {
    if ps != [] {
      if ps[0].at <= pos {
        SameSetAt(t.top, u.top, t.captured, ps[0].height, ps[0].key, ps[0].value);
        SameApplyDue(Apply(t, ps[0]), Apply(u, ps[0]), ps[1..], pos);
      } else {
        SameApplyDue(t, u, ps[1..], pos);
      }
    }
  }

  lemma SameEnter(t: Tracker, u: Tracker, n: Node)
    requires Same(t, u) && n.Scope?
    ensures Same(Enter(t, n), Enter(u, n))
  {
    assert Blank(t.top.frame) == Blank(u.top.frame);
  }

  lemma SameLeave(t: Tracker, u: Tracker)
    requires Same(t, u) && t.top.Push?
    ensures Same(Leave(t), Leave(u))
  {
    var captured := Leave(t).captured;
    assert Blank(t.top.frame) == Blank(u.top.frame);
    assert SameStack(t.top.parent, u.top.parent, t.captured);
    assert Blank(t.top.parent.frame) == Blank(u.top.parent.frame);
    assert WrittenKeys(t.top.frame) == WrittenKeys(u.top.frame);
    assert Outward(t.top.frame) == Outward(u.top.frame);
    SameWidens(t.top, u.top, t.captured, captured);
    assert SameFrame(LeaveInto(t.top.parent.frame, t.top.frame), LeaveInto(u.top.parent.frame, u.top.frame), captured);
  }

  lemma {:induction false} SameLeaveEnded(t: Tracker, u: Tracker, pos: Pos)
    requires Same(t, u)
    ensures Same(LeaveEnded(t, pos), LeaveEnded(u, pos))
    decreases Height(t.top)
  {
    SameOutline(t.top, u.top, t.captured);
    assert Blank(t.top.frame) == Blank(u.top.frame);
    if t.top.Push? && t.top.frame.end <= pos {
      HeightByOutline(Leave(t).top, t.top.parent);
      SameLeave(t, u);
      SameLeaveEnded(Leave(t), Leave(u), pos);
    }
  }

  predicate SameLazy(l: Lazy, m: Lazy) {
    Same(l.t, m.t) && l.pending == m.pending
  }

  lemma SameSettle(l: Lazy, m: Lazy, pos: Pos)
    requires SameLazy(l, m)
    ensures SameLazy(Settle(l, pos), Settle(m, pos))
  {
    SameApplyDue(l.t, m.t, l.pending, pos);
    SameLeaveEnded(ApplyDue(l.t, l.pending, pos), ApplyDue(m.t, m.pending, pos), pos);
  }

  lemma SameRhs(ws: set<Site>, t: Tracker, u: Tracker, x: Target)
    requires Same(t, u)
    ensures RhsBinding(ws, t, x.rhs) == RhsBinding(ws, u, x.rhs) && Recorded(ws, t, x) == Recorded(ws, u, x)
  {
    SameLookup(ws, t, u, x.key);
    match x.rhs
    case Group(parent, _) => SameLookup(ws, t, u, parent);
    case Copy(source) => SameLookup(ws, t, u, source);
    case Opaque =>
  }

  lemma {:induction false} CarriedByOutline(s: Stack, r: Stack, k: Key, pos: Pos)
    requires Outline(s) == Outline(r)
    ensures CarriedAcrossRuns(s, k, pos) == CarriedAcrossRuns(r, k, pos)
    decreases s
  {
    assert Blank(s.frame) == Blank(r.frame);
    if s.Push? {
      CarriedByOutline(s.parent, r.parent, k, pos);
    }
  }

  lemma WrittenByOutline(s: Stack, r: Stack, k: Key, pos: Pos, v: Prefix)
    requires Outline(s) == Outline(r)
    ensures WrittenValue(s, k, pos, v) == WrittenValue(r, k, pos, v)
    ensures WriteHeight(s, k) == WriteHeight(r, k) && LandsOutside(s, k) == LandsOutside(r, k)
  {
    assert Blank(s.frame) == Blank(r.frame);
    HeightByOutline(s, r);
    CarriedByOutline(s, r, k, pos);
    if s.Push? {
      CarriedByOutline(s.parent, r.parent, k, pos);
    }
  }

  lemma {:induction false} SameTouched(s: Stack, r: Stack, captured: set<Key>, k: Key)
    requires SameStack(s, r, captured)
    ensures Touched(s, k) == Touched(r, k)
    decreases s
  {
    assert WrittenKeys(s.frame) == WrittenKeys(r.frame);
    if s.Push? {
      SameTouched(s.parent, r.parent, captured, k);
    }
  }

  /** Trackers that differ only on captured variables record the same writes and hazards. */
  lemma {:induction false} SamePending(ws: set<Site>, t: Tracker, u: Tracker, pos: Pos, at: Pos, targets: seq<Target>)
    requires Same(t, u)
    ensures PendingAll(ws, t, pos, at, targets) == PendingAll(ws, u, pos, at, targets)
    ensures Hazards(ws, t, pos, targets) == Hazards(ws, u, pos, targets)
    decreases |targets|
  {
    if targets != [] {
      var x := targets[0];
      SameOutline(t.top, u.top, t.captured);
      SameRhs(ws, t, u, x);
      WrittenByOutline(t.top, u.top, x.key, pos, RhsBinding(ws, t, x.rhs).value);
      CrossesByOutline(t.top, u.top, x.key);
      SameTouched(t.top, u.top, t.captured, x.key);
      if x.rhs.Group? {
        SameLookup(ws, t, u, x.rhs.parent);
      }
      SamePending(ws, t, u, pos, at, targets[1..]);
    }
  }

  // ----- what is open, and what waits

  /** Every open scope reaches at least as far as hi. */
  predicate Encloses(s: Stack, hi: Pos) {
    s.Push? ==> hi <= s.frame.end && Encloses(s.parent, hi)
  }

  lemma {:induction false} EnclosesByOutline(s: Stack, r: Stack, hi: Pos)
    requires Outline(s) == Outline(r)
    ensures Encloses(s, hi) == Encloses(r, hi)
    decreases s
  {
    assert Blank(s.frame) == Blank(r.frame);
    if s.Push? {
      EnclosesByOutline(s.parent, r.parent, hi);
    }
  }

  lemma {:induction false} EnclosesLess(s: Stack, hi: Pos, lower: Pos)
    requires Encloses(s, hi) && lower <= hi
    ensures Encloses(s, lower)
    decreases s
  {
    if s.Push? {
      EnclosesLess(s.parent, hi, lower);
    }
  }

  /** The frame at that height lies outside a function literal now open. */
  predicate Beneath(s: Stack, height: nat) {
    s.Push? && ((s.frame.kind.LitK? && height <= Height(s.parent)) || Beneath(s.parent, height))
  }

  lemma {:induction false} BeneathByOutline(s: Stack, r: Stack, height: nat)
    requires Outline(s) == Outline(r)
    ensures Beneath(s, height) == Beneath(r, height)
    decreases s
  {
    assert Blank(s.frame) == Blank(r.frame);
    if s.Push? {
      HeightByOutline(s.parent, r.parent);
      BeneathByOutline(s.parent, r.parent, height);
    }
  }

  lemma {:induction false} BeneathIsLow(s: Stack, height: nat)
    requires Beneath(s, height)
    ensures height < Height(s)
    decreases s
  {
    if !(s.frame.kind.LitK? && height <= Height(s.parent)) {
      BeneathIsLow(s.parent, height);
    }
  }

  /** Writes wait only for the statement around an expression, or one around a function literal. */
  predicate WaitsOutside(s: Stack, ps: seq<Pending>, hi: Pos, expressions: bool) {
    forall p <- ps :: hi <= p.at && (Beneath(s, p.height) || (expressions && p.height <= Height(s)))
  }

  lemma WaitsByOutline(s: Stack, r: Stack, ps: seq<Pending>, hi: Pos, expressions: bool)
    requires Outline(s) == Outline(r) && WaitsOutside(s, ps, hi, expressions)
    ensures WaitsOutside(r, ps, hi, expressions)
  {
    forall p | p in ps ensures Beneath(s, p.height) == Beneath(r, p.height) && Height(s) == Height(r) {
      BeneathByOutline(s, r, p.height);
      HeightByOutline(s, r);
    }
  }

  lemma {:induction false} NothingDue(t: Tracker, ps: seq<Pending>, pos: Pos)
    requires forall p <- ps :: pos < p.at
    ensures ApplyDue(t, ps, pos) == t && NotDue(ps, pos) == ps
    decreases |ps|
  {
    if ps != [] {
      assert ps[0] in ps;
      NothingDue(t, ps[1..], pos);
    }
  }

  /** Inside the scopes that are open and the statements that wait, nothing happens. */
  lemma SettlesNowhere(l: Lazy, hi: Pos, expressions: bool, pos: Pos)
    requires Encloses(l.t.top, hi) && WaitsOutside(l.t.top, l.pending, hi, expressions) && pos < hi
    ensures Settle(l, pos) == l
  {
    NothingDue(l.t, l.pending, pos);
  }

  /** From lo on, the walk that stands at l stands where a walk at m would. */
  ghost predicate Follows(l: Lazy, lo: Pos, m: Lazy) {
    forall q :: lo <= q ==> SameLazy(Settle(l, q), Settle(m, q))
  }

  lemma SameFollows(l: Lazy, lo: Pos, m: Lazy)
    requires SameLazy(l, m)
    ensures Follows(l, lo, m)
  {
    forall q | lo <= q ensures SameLazy(Settle(l, q), Settle(m, q)) {
      SameSettle(l, m, q);
    }
  }

  // ----- writes in different frames, and leaving a frame, commute

  lemma {:induction false} SetsCommute(s: Stack, h: nat, k: Key, v: Prefix, g: nat, j: Key, w: Prefix)
    requires h < g <= Height(s)
    ensures SetAt(SetAt(s, h, k, v), g, j, w) == SetAt(SetAt(s, g, j, w), h, k, v)
    decreases s
  {
    HeightByOutline(SetAt(s, h, k, v), s);
    HeightByOutline(SetAt(s, g, j, w), s);
    if Height(s) > g {
      HeightByOutline(SetAt(s.parent, h, k, v), s.parent);
      HeightByOutline(SetAt(s.parent, g, j, w), s.parent);
      SetsCommute(s.parent, h, k, v, g, j, w);
    }
  }

  /** A write outside the scope left, below the one around it or from around a function literal. */
  lemma LeaveCommutes(t: Tracker, p: Pending)
    requires t.top.Push?
    requires p.height < Height(t.top.parent) || (t.top.frame.kind.LitK? && p.height <= Height(t.top.parent))
    ensures Same(Leave(Apply(t, p)), Apply(Leave(t), p))
  {
    var outer, left := t.top.parent, t.top.frame;
    var f := LeaveInto(outer.frame, left);
    HeightByOutline(OnTop(outer, f), outer);
    if p.height < Height(outer) {
      assert SetAt(t.top, p.height, p.key, p.value) == Push(left, Push(outer.frame, SetAt(outer.parent, p.height, p.key, p.value)));
      assert Apply(Leave(t), p).top == Push(f, SetAt(outer.parent, p.height, p.key, p.value));
      assert Leave(Apply(t, p)) == Apply(Leave(t), p);
      SameReflexive(Leave(Apply(t, p)).top, Leave(t).captured);
    } else {
      assert SetAt(t.top, p.height, p.key, p.value) == Push(left, OnTop(outer, WithValue(outer.frame, p.key, p.value)));
      assert Apply(Leave(t), p).top == OnTop(outer, WithValue(f, p.key, p.value));
      assert WithValue(LeaveInto(outer.frame, left), p.key, p.value).values.Keys
          == LeaveInto(WithValue(outer.frame, p.key, p.value), left).values.Keys;
      if outer.Push? {
        SameReflexive(outer.parent, Leave(t).captured);
      }
    }
  }

  /** The waiting writes may be applied before a scope is left or after. */
  lemma {:induction false} LeaveCommutesAll(t: Tracker, ps: seq<Pending>, pos: Pos)
    requires t.top.Push?
    requires forall p <- ps :: p.height < Height(t.top.parent) || (t.top.frame.kind.LitK? && p.height <= Height(t.top.parent))
    ensures Same(Leave(ApplyDue(t, ps, pos)), ApplyDue(Leave(t), ps, pos))
    decreases |ps|
  {
    if ps == [] {
      SameReflexive(Leave(t).top, Leave(t).captured);
    } else if ps[0].at <= pos {
      var p := ps[0];
      assert p in ps;
      var a := Apply(t, p);
      HeightByOutline(a.top, t.top);
      assert Blank(a.top.frame) == Blank(t.top.frame);
      LeaveCommutesAll(a, ps[1..], pos);
      LeaveCommutes(t, p);
      SameApplyDue(Leave(a), Apply(Leave(t), p), ps[1..], pos);
      SameTransitive(Leave(ApplyDue(a, ps[1..], pos)).top, ApplyDue(Leave(a), ps[1..], pos).top,
                     ApplyDue(Apply(Leave(t), p), ps[1..], pos).top, Leave(ApplyDue(a, ps[1..], pos)).captured);
    } else {
      LeaveCommutesAll(t, ps[1..], pos);
    }
  }

  /** Leaving a scope that has ended is what settling does next. */
  lemma LeaveSettles(m: Lazy, q: Pos)
    requires m.t.top.Push? && m.t.top.frame.end <= q
    requires forall p <- m.pending :: p.height < Height(m.t.top.parent) || (m.t.top.frame.kind.LitK? && p.height <= Height(m.t.top.parent))
    ensures SameLazy(Settle(m, q), Settle(m.(t := Leave(m.t)), q))
  {
    var a := ApplyDue(m.t, m.pending, q);
    assert Blank(a.top.frame) == Blank(m.t.top.frame);
    LeaveCommutesAll(m.t, m.pending, q);
    SameLeaveEnded(Leave(a), ApplyDue(Leave(m.t), m.pending, q), q);
  }

  // ----- an assignment's writes

  lemma {:induction false} ApplyDueSplit(t: Tracker, ps: seq<Pending>, qs: seq<Pending>, pos: Pos)
    ensures ApplyDue(t, ps + qs, pos) == ApplyDue(ApplyDue(t, ps, pos), qs, pos)
    ensures NotDue(ps + qs, pos) == NotDue(ps, pos) + NotDue(qs, pos)
    decreases |ps|
  {
    if ps == [] {
      assert ps + qs == qs;
    } else {
      assert (ps + qs)[1..] == ps[1..] + qs;
      ApplyDueSplit(if ps[0].at <= pos then Apply(t, ps[0]) else t, ps[1..], qs, pos);
    }
  }

  lemma {:induction false} ApplyCommutes(t: Tracker, ps: seq<Pending>, p: Pending, pos: Pos)
    requires p.height <= Height(t.top) && forall x <- ps :: x.height < p.height
    ensures Apply(ApplyDue(t, ps, pos), p) == ApplyDue(Apply(t, p), ps, pos)
    decreases |ps|
  {
    if ps != [] {
      var x := ps[0];
      assert x in ps;
      if x.at <= pos {
        HeightByOutline(Apply(t, x).top, t.top);
        SetsCommute(t.top, x.height, x.key, x.value, p.height, p.key, p.value);
        ApplyCommutes(Apply(t, x), ps[1..], p, pos);
      } else {
        ApplyCommutes(t, ps[1..], p, pos);
      }
    }
  }

  /** The waiting writes of outer statements may be applied before those of an inner one or after. */
  lemma {:induction false} ApplyAllCommutes(t: Tracker, ps: seq<Pending>, qs: seq<Pending>, pos: Pos)
    requires forall q <- qs :: q.height <= Height(t.top)
    requires forall p <- ps, q <- qs :: p.height < q.height
    ensures ApplyDue(ApplyDue(t, ps, pos), qs, pos) == ApplyDue(ApplyDue(t, qs, pos), ps, pos)
    decreases |qs|
  {
    if qs != [] {
      var q := qs[0];
      assert q in qs;
      if q.at <= pos {
        ApplyCommutes(t, ps, q, pos);
        HeightByOutline(Apply(t, q).top, t.top);
        ApplyAllCommutes(Apply(t, q), ps, qs[1..], pos);
      } else {
        ApplyAllCommutes(t, ps, qs[1..], pos);
      }
    }
  }

  /** Applying the waiting writes of an assignment is writing its targets. */
  lemma {:induction false} PendingWrites(ws: set<Site>, before: Tracker, t: Tracker, pos: Pos, at: Pos, targets: seq<Target>, q: Pos)
    requires Outline(before.top) == Outline(t.top) && at <= q
    ensures ApplyDue(t, PendingAll(ws, before, pos, at, targets), q) == WriteTargets(ws, before, t, pos, targets)
    ensures NotDue(PendingAll(ws, before, pos, at, targets), q) == []
    decreases |targets|
  {
    if targets != [] {
      var x := targets[0];
      var v := RhsBinding(ws, before, x.rhs).value;
      var rest := PendingAll(ws, before, pos, at, targets[1..]);
      WrittenByOutline(before.top, t.top, x.key, pos, v);
      PendingWrites(ws, before, WriteTarget(ws, before, t, pos, x), pos, at, targets[1..], q);
      if Recorded(ws, before, x) {
        var p := PendingOf(ws, before, pos, at, x)[0];
        assert ([p] + rest)[1..] == rest;
        HeightByOutline(before.top, t.top);
        if LandsOutside(t.top, x.key) {
          HeightByOutline(before.top.parent, t.top.parent);
          assert p.height == Height(t.top.parent);
          assert SetAt(t.top.parent, p.height, x.key, p.value) == OnTop(t.top.parent, WithValue(t.top.parent.frame, x.key, p.value));
        } else {
          assert p.height == Height(t.top);
        }
        assert p.value == WrittenValue(t.top, x.key, pos, v);
        assert SetAt(t.top, p.height, x.key, p.value) == SetIn(t.top, x.key, p.value);
        assert Apply(t, p) == WriteTarget(ws, before, t, pos, x);
      } else {
        assert [] + rest == rest;
      }
    }
  }

  /** They go into the frame the assignment stands in, or, from a header, the one around it. */
  lemma {:induction false} PendingHeights(ws: set<Site>, t: Tracker, pos: Pos, at: Pos, targets: seq<Target>)
    ensures forall p <- PendingAll(ws, t, pos, at, targets) ::
              p.at == at && p.height <= Height(t.top)
              && (p.height == Height(t.top) || (t.top.Push? && IsHeader(t.top.frame.kind) && p.height == Height(t.top.parent)))
    decreases |targets|
  {
    if targets != [] {
      PendingHeights(ws, t, pos, at, targets[1..]);
    }
  }

  /** The writes of an assignment, once it has ended, are in place. */
  lemma WritesSettle(ws: set<Site>, before: Tracker, w: Tracker, ps: seq<Pending>, pos: Pos, at: Pos, targets: seq<Target>, q: Pos)
    requires Outline(before.top) == Outline(w.top) && at <= q
    requires forall p <- ps :: Beneath(before.top, p.height)
    ensures Settle(Lazy(w, ps + PendingAll(ws, before, pos, at, targets)), q)
         == Settle(Lazy(WriteTargets(ws, before, w, pos, targets), ps), q)
  {
    var qs := PendingAll(ws, before, pos, at, targets);
    PendingHeights(ws, before, pos, at, targets);
    HeightByOutline(before.top, w.top);
    forall p, x | p in ps && x in qs ensures p.height < x.height {
      BeneathIsLow(before.top, p.height);
      if x.height != Height(before.top) {
        BeneathIsLow(before.top.parent, p.height);
      }
    }
    ApplyDueSplit(w, ps, qs, q);
    ApplyAllCommutes(w, ps, qs, q);
    PendingWrites(ws, before, w, pos, at, targets, q);
    assert NotDue(ps, q) + [] == NotDue(ps, q);
  }

  // ----- the refinement

  /** l stands before code between lo and hi where the structural walk stands at t. */
  ghost predicate Stands(l: Lazy, lo: Pos, hi: Pos, t: Tracker, ps: seq<Pending>, expressions: bool) {
    Follows(l, lo, Lazy(t, ps)) && Encloses(t.top, hi) && WaitsOutside(t.top, ps, hi, expressions)
  }

  /** Reaching a node inside it settles nothing that the structural walk has not done. */
  lemma Arrive(l: Lazy, lo: Pos, hi: Pos, t: Tracker, ps: seq<Pending>, expressions: bool, pos: Pos)
    requires Stands(l, lo, hi, t, ps, expressions) && lo <= pos < hi
    ensures SameLazy(Settle(l, pos), Lazy(t, ps))
  {
    SettlesNowhere(Lazy(t, ps), hi, expressions, pos);
  }

  /** The expressions of a call stand where the call does. */
  lemma CallStands(n: Node, s: Lazy, hi: Pos, t: Tracker, ps: seq<Pending>, expressions: bool)
    requires n.Call? && n.end <= hi && SameLazy(s, Lazy(t, ps))
    requires Encloses(t.top, hi) && WaitsOutside(t.top, ps, hi, expressions)
    ensures Stands(s, if n.registrar.Some? then n.pos + 1 else n.pos, n.end, t, ps, true)
  {
    SameFollows(s, if n.registrar.Some? then n.pos + 1 else n.pos, Lazy(t, ps));
    EnclosesLess(t.top, hi, n.end);
  }

  /** Those of an assignment stand where its own writes wait as well. */
  lemma AssignStands(ws: set<Site>, n: Node, s: Lazy, hi: Pos, t: Tracker, ps: seq<Pending>)
    requires n.Assign? && n.end <= hi && SameLazy(s, Lazy(t, ps))
    requires Encloses(t.top, hi) && WaitsOutside(t.top, ps, hi, false)
    ensures Stands(s.(pending := s.pending + PendingAll(ws, s.t, n.pos, n.end, n.targets)), n.pos, n.end,
                   t, ps + PendingAll(ws, t, n.pos, n.end, n.targets), true)
    ensures Hazards(ws, s.t, n.pos, n.targets) == Hazards(ws, t, n.pos, n.targets)
  {
    var qs := PendingAll(ws, t, n.pos, n.end, n.targets);
    SamePending(ws, s.t, t, n.pos, n.end, n.targets);
    PendingHeights(ws, t, n.pos, n.end, n.targets);
    SameFollows(s.(pending := s.pending + qs), n.pos, Lazy(t, ps + qs));
    EnclosesLess(t.top, hi, n.end);
  }

  /** The header of a scope stands in the scope's own frame. */
  lemma EnterStands(n: Node, m: Lazy, hi: Pos, t: Tracker, ps: seq<Pending>, expressions: bool)
    requires n.Scope? && n.end <= hi && SameLazy(m, Lazy(Enter(t, n), ps))
    requires Encloses(t.top, hi) && WaitsOutside(t.top, ps, hi, expressions) && (expressions ==> n.kind.LitK?)
    ensures Stands(m, n.pos, n.end, Enter(t, n), ps, false)
  {
    SameFollows(m, n.pos, Lazy(Enter(t, n), ps));
    EnterEncloses(t, n, hi, ps, expressions);
  }

  lemma {:induction false} WalkRefines(ws: set<Site>, n: Node, l: Lazy, lo: Pos, hi: Pos, t: Tracker, ps: seq<Pending>, expressions: bool, avail: set<Key>)
    requires WellFormed(n, avail) && lo <= n.pos && n.end <= hi
    requires Stands(l, lo, hi, t, ps, expressions) && (expressions ==> AreExpressions(Cons(n, Nil)))
    ensures LazyWalk(ws, n, l).log == Walk(ws, n, t).log
    ensures Stands(LazyWalk(ws, n, l).l, n.end, hi, Walk(ws, n, t).t, ps, expressions)
    decreases n, 1
  {
    var s, r := Settle(l, n.pos), Walk(ws, n, t).t;
    Arrive(l, lo, hi, t, ps, expressions, n.pos);
    EnclosesByOutline(t.top, r.top, hi);
    WaitsByOutline(t.top, r.top, ps, hi, expressions);
    hide Settle, Walk, LazyCall, LazyAssign, LazyScope, WellFormed, SameLazy, Follows, Encloses, WaitsOutside;
    assert LazyWalk(ws, n, l) == LazyVisit(ws, n, Advance(l, n));
    if n.Call? {
      CallRefines(ws, n, s, hi, t, ps, expressions, avail);
    } else if n.Assign? {
      AssignRefines(ws, n, s, hi, t, ps, avail);
    } else {
      ScopeRefines(ws, n, s, hi, t, ps, expressions, avail);
    }
  }

  lemma {:induction false} CallRefines(ws: set<Site>, n: Node, s: Lazy, hi: Pos, t: Tracker, ps: seq<Pending>, expressions: bool, avail: set<Key>)
    requires n.Call? && WellFormed(n, avail) && n.end <= hi && SameLazy(s, Lazy(t, ps))
    requires Encloses(t.top, hi) && WaitsOutside(t.top, ps, hi, expressions)
    ensures LazyCall(ws, n, s).log == Walk(ws, n, t).log
    ensures Follows(LazyCall(ws, n, s).l, n.end, Lazy(Walk(ws, n, t).t, ps))
    decreases n, 0
  {
    if n.registrar.Some? {
      SameLookup(ws, s.t, t, n.registrar.value);
    }
    var lo := if n.registrar.Some? then n.pos + 1 else n.pos;
    CallStands(n, s, hi, t, ps, expressions);
    WalkInRefines(ws, n.inner, s, lo, n.end, t, ps, true, avail);
    AfterIsAhead(n.inner, lo, n.end, avail);
  }

  lemma {:induction false} AssignRefines(ws: set<Site>, n: Node, s: Lazy, hi: Pos, t: Tracker, ps: seq<Pending>, avail: set<Key>)
    requires n.Assign? && WellFormed(n, avail) && n.end <= hi && SameLazy(s, Lazy(t, ps))
    requires Encloses(t.top, hi) && WaitsOutside(t.top, ps, hi, false)
    ensures LazyAssign(ws, n, s).log == Walk(ws, n, t).log
    ensures Follows(LazyAssign(ws, n, s).l, n.end, Lazy(Walk(ws, n, t).t, ps))
    decreases n, 0
  {
    var qs := PendingAll(ws, t, n.pos, n.end, n.targets);
    var m := s.(pending := s.pending + PendingAll(ws, s.t, n.pos, n.end, n.targets));
    AssignStands(ws, n, s, hi, t, ps);
    WalkInRefines(ws, n.inner, m, n.pos, n.end, t, ps + qs, true, avail);
    AfterIsAhead(n.inner, n.pos, n.end, avail);
    var w, u := LazyWalkIn(ws, n.inner, m).l, WalkIn(ws, n.inner, t).t;
    forall q | n.end <= q ensures SameLazy(Settle(w, q), Settle(Lazy(Walk(ws, n, t).t, ps), q)) {
      WritesSettle(ws, t, u, ps, n.pos, n.end, n.targets, q);
    }
  }

  lemma {:induction false} ScopeRefines(ws: set<Site>, n: Node, s: Lazy, hi: Pos, t: Tracker, ps: seq<Pending>, expressions: bool, avail: set<Key>)
    requires n.Scope? && WellFormed(n, avail) && n.end <= hi && SameLazy(s, Lazy(t, ps))
    requires Encloses(t.top, hi) && WaitsOutside(t.top, ps, hi, expressions) && (expressions ==> n.kind.LitK?)
    ensures LazyScope(ws, n, s.(t := Enter(s.t, n))).log == Walk(ws, n, t).log
    ensures Follows(LazyScope(ws, n, s.(t := Enter(s.t, n))).l, n.end, Lazy(Walk(ws, n, t).t, ps))
    decreases n, 0
  {
    var e, mid := Enter(t, n), After(n.header, n.pos);
    var m := s.(t := Enter(s.t, n));
    SameEnter(s.t, t, n);
    EnterStands(n, m, hi, t, ps, expressions);
    EnterEncloses(t, n, hi, ps, expressions);
    var h := HeaderWalked(ws, n, t);
    WalkInRefines(ws, n.header, m, n.pos, n.end, e, ps, false, avail);
    var w := LazyWalkIn(ws, n.header, m).l;
    WalkInRefines(ws, n.body, w, mid, n.end, h, ps, false, InnerScope(n, avail));
    AfterIsAhead(n.body, mid, n.end, InnerScope(n, avail));
    var v, r := LazyWalkIn(ws, n.body, w).l, BodyWalked(ws, n, t);
    LeaveFollows(n, e, r, ps, v);
  }

  lemma EnterEncloses(t: Tracker, n: Node, hi: Pos, ps: seq<Pending>, expressions: bool)
    requires n.Scope? && n.end <= hi
    requires Encloses(t.top, hi) && WaitsOutside(t.top, ps, hi, expressions) && (expressions ==> n.kind.LitK?)
    ensures Encloses(Enter(t, n).top, n.end) && WaitsOutside(Enter(t, n).top, ps, n.end, false)
    ensures forall p <- ps :: p.height < Height(t.top) || (n.kind.LitK? && p.height <= Height(t.top))
  {
    var e := Enter(t, n);
    EnclosesLess(t.top, hi, n.end);
    EnclosesByOutline(t.top, e.top.parent, n.end);
    HeightByOutline(t.top, e.top.parent);
    forall p | p in ps
      ensures Beneath(e.top, p.height) && (p.height < Height(t.top) || (n.kind.LitK? && p.height <= Height(t.top)))
    {
      BeneathByOutline(t.top, e.top.parent, p.height);
      if Beneath(t.top, p.height) {
        BeneathIsLow(t.top, p.height);
      }
    }
  }

  lemma LeaveFollows(n: Node, e: Tracker, r: Tracker, ps: seq<Pending>, v: Lazy)
    requires n.Scope? && e.top.Push? && e.top.frame.end == n.end && e.top.frame.kind == n.kind
    requires Outline(e.top) == Outline(r.top) && Follows(v, n.end, Lazy(r, ps))
    requires forall p <- ps :: p.height < Height(e.top.parent) || (n.kind.LitK? && p.height <= Height(e.top.parent))
    ensures Follows(v, n.end, Lazy(Leave(r), ps))
  {
    assert Blank(e.top.frame) == Blank(r.top.frame);
    HeightByOutline(e.top.parent, r.top.parent);
    forall q | n.end <= q ensures SameLazy(Settle(v, q), Settle(Lazy(Leave(r), ps), q)) {
      LeaveSettles(Lazy(r, ps), q);
      SameTransitive(Settle(v, q).t.top, Settle(Lazy(r, ps), q).t.top, Settle(Lazy(Leave(r), ps), q).t.top, Settle(v, q).t.captured);
    }
  }

  lemma {:induction false} WalkInRefines(ws: set<Site>, ns: Nodes, l: Lazy, lo: Pos, hi: Pos, t: Tracker, ps: seq<Pending>, expressions: bool, avail: set<Key>)
    requires WellFormedIn(ns, lo, hi, avail)
    requires Stands(l, lo, hi, t, ps, expressions) && (expressions ==> AreExpressions(ns))
    ensures LazyWalkIn(ws, ns, l).log == WalkIn(ws, ns, t).log
    ensures Stands(LazyWalkIn(ws, ns, l).l, After(ns, lo), hi, WalkIn(ws, ns, t).t, ps, expressions)
    decreases ns, 0
  {
    if ns.Cons? {
      WalkRefines(ws, ns.head, l, lo, hi, t, ps, expressions, avail);
      WalkInRefines(ws, ns.tail, LazyWalk(ws, ns.head, l).l, ns.head.end, hi, Walk(ws, ns.head, t).t, ps, expressions, avail + Declared(ns.head));
    }
  }

  /**
   Anywhere after a node, once what is due there is settled, the two trackers
   have the same scopes open, the same variables captured, and give every
   lookup the same answer.
   */
  lemma LookupsAgree(ws: set<Site>, n: Node, l: Lazy, lo: Pos, hi: Pos, t: Tracker, ps: seq<Pending>, expressions: bool, avail: set<Key>, q: Pos, k: Key)
    requires WellFormed(n, avail) && lo <= n.pos && n.end <= q < hi
    requires Stands(l, lo, hi, t, ps, expressions) && (expressions ==> AreExpressions(Cons(n, Nil)))
    ensures var (s, r) := (Settle(LazyWalk(ws, n, l).l, q), Walk(ws, n, t).t);
            && Outline(s.t.top) == Outline(r.top) && s.t.captured == r.captured && s.pending == ps
            && Lookup(ws, s.t, k) == Lookup(ws, r, k)
  {
    hide Stands, WellFormed, LazyWalk, Walk, Settle, Lookup;
    var after, r := LazyWalk(ws, n, l).l, Walk(ws, n, t).t;
    WalkRefines(ws, n, l, lo, hi, t, ps, expressions, avail);
    Arrive(after, n.end, hi, r, ps, expressions, q);
    SameOutline(Settle(after, q).t.top, r.top, r.captured);
    SameLookup(ws, Settle(after, q).t, r, k);
  }
}
