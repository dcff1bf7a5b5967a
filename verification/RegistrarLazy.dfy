/**
 The registrar analysis as the tracker runs it: driven by positions alone.  A
 write waits until the walk reaches a position at or after the end of its
 statement, a scope stays open until the walk reaches a position at or after
 its end.
 */
module RegistrarLazy {
  import opened Wrappers
  import opened RegistrarSyntax
  import opened RegistrarTracker
  import opened RegistrarStructure

  /** A queued write; height counts the frames below the one it goes to. */
  datatype Pending = Pending(at: Pos, height: nat, key: Key, value: Prefix)

  datatype Lazy = Lazy(t: Tracker, pending: seq<Pending>)

  function Height(s: Stack): nat {
    match s
    case Bottom(_) => 0
    case Push(_, parent) => 1 + Height(parent)
  }

  function SetAt(s: Stack, height: nat, k: Key, v: Prefix): (r: Stack)
    ensures Outline(r) == Outline(s)
  {
    if s.Bottom? || Height(s) <= height then OnTop(s, WithValue(s.frame, k, v))
    else Push(s.frame, SetAt(s.parent, height, k, v))
  }

  function Apply(t: Tracker, p: Pending): (r: Tracker)
    ensures Outline(r.top) == Outline(t.top)
  {
    t.(top := SetAt(t.top, p.height, p.key, p.value))
  }

  /** The writes due at pos, in the order they were recorded. */
  function ApplyDue(t: Tracker, ps: seq<Pending>, pos: Pos): (r: Tracker)
    ensures Outline(r.top) == Outline(t.top)
    decreases |ps|
  {
    if ps == [] then t
    else ApplyDue(if ps[0].at <= pos then Apply(t, ps[0]) else t, ps[1..], pos)
  }

  function NotDue(ps: seq<Pending>, pos: Pos): seq<Pending>
    decreases |ps|
  {
    if ps == [] then []
    else (if ps[0].at <= pos then [] else [ps[0]]) + NotDue(ps[1..], pos)
  }

  lemma {:induction false} HeightByOutline(s: Stack, r: Stack)
    requires Outline(s) == Outline(r)
    ensures Height(s) == Height(r)
    decreases s
  {
    if s.Push? {
      HeightByOutline(s.parent, r.parent);
    }
  }

  function LeaveEnded(t: Tracker, pos: Pos): Tracker
    decreases Height(t.top)
  {
    if t.top.Push? && t.top.frame.end <= pos then
      HeightByOutline(Leave(t).top, t.top.parent);
      LeaveEnded(Leave(t), pos)
    else t
  }

  /** Where the walk stands once it reaches pos. */
  function Settle(l: Lazy, pos: Pos): Lazy {
    Lazy(LeaveEnded(ApplyDue(l.t, l.pending, pos), pos), NotDue(l.pending, pos))
  }

  function Advance(l: Lazy, n: Node): Lazy {
    var s := Settle(l, n.pos);
    if n.Scope? then s.(t := Enter(s.t, n)) else s
  }

  function WriteHeight(s: Stack, k: Key): nat {
    if LandsOutside(s, k) then Height(s.parent) else Height(s)
  }

  function PendingOf(ws: set<Site>, t: Tracker, pos: Pos, at: Pos, target: Target): seq<Pending> {
    if Recorded(ws, t, target) then
      [Pending(at, WriteHeight(t.top, target.key), target.key, WrittenValue(t.top, target.key, pos, RhsBinding(ws, t, target.rhs).value))]
    else []
  }

  /** The writes of an assignment from pos to at, as they wait. */
  function PendingAll(ws: set<Site>, t: Tracker, pos: Pos, at: Pos, targets: seq<Target>): seq<Pending>
    decreases |targets|
  {
    if targets == [] then [] else PendingOf(ws, t, pos, at, targets[0]) + PendingAll(ws, t, pos, at, targets[1..])
  }

  datatype LazyWalked = LazyWalked(l: Lazy, log: seq<Entry>)

  function LazyWalk(ws: set<Site>, n: Node, l: Lazy): LazyWalked
    decreases n, 3
  {
    LazyVisit(ws, n, Advance(l, n))
  }

  /** A node once the walk has moved to it. */
  function LazyVisit(ws: set<Site>, n: Node, s: Lazy): LazyWalked
    decreases n, 2
  {
    if n.Call? then LazyCall(ws, n, s) else if n.Assign? then LazyAssign(ws, n, s) else LazyScope(ws, n, s)
  }

  function LazyCall(ws: set<Site>, n: Node, s: Lazy): LazyWalked
    requires n.Call?
    decreases n, 1
  {
    var w := LazyWalkIn(ws, n.inner, s);
    var own := if n.registrar.Some? then [Registration(n.pos, n.registrar.value, Lookup(ws, s.t, n.registrar.value))] else [];
    LazyWalked(w.l, own + w.log)
  }

  function LazyAssign(ws: set<Site>, n: Node, s: Lazy): LazyWalked
    requires n.Assign?
    decreases n, 1
  {
    var w := LazyWalkIn(ws, n.inner, s.(pending := s.pending + PendingAll(ws, s.t, n.pos, n.end, n.targets)));
    LazyWalked(w.l, Hazards(ws, s.t, n.pos, n.targets) + w.log)
  }

  function LazyScope(ws: set<Site>, n: Node, s: Lazy): LazyWalked
    requires n.Scope?
    decreases n, 1
  {
    var w := LazyWalkIn(ws, n.header, s);
    var v := LazyWalkIn(ws, n.body, w.l);
    LazyWalked(v.l, w.log + v.log)
  }

  function LazyWalkIn(ws: set<Site>, ns: Nodes, l: Lazy): LazyWalked
    decreases ns, 0
  {
    match ns
    case Nil => LazyWalked(l, [])
    case Cons(head, tail) =>
      var w := LazyWalk(ws, head, l);
      var v := LazyWalkIn(ws, tail, w.l);
      LazyWalked(v.l, w.log + v.log)
  }
}
