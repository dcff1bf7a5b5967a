/**
 The registrar analysis as a recursion over the structure of the code: each
 scope is entered, walked and left, each write lands when its statement ends.
 RegistrarRefinement shows that the position-driven tracker computes this.
 */
module RegistrarStructure {
  import opened Wrappers
  import opened RegistrarSyntax
  import opened RegistrarTracker

  /**
   What the walk reports, in order: the binding each registration reads, and
   the two places where the analysis deliberately knows nothing: a group opened
   on a variable it holds no binding for, and an untraced write, inside a
   function literal, to an outer variable that is a registrar elsewhere in the
   body but not known as one there.  Neither matters where the variable written
   is captured already, since it is never resolved again.
   */
  datatype Entry =
    | Registration(pos: Pos, key: Key, prefix: Option<Prefix>)
    | UnknownParent(pos: Pos, key: Key, target: Key)
    | LostWrite(pos: Pos, key: Key)

  datatype Walked = Walked(t: Tracker, log: seq<Entry>)

  /** Some function literal between the top of s and the declaration of k. */
  predicate CrossesLiteral(s: Stack, k: Key) {
    !Declares(s.frame, k) && (s.frame.kind.LitK? || (s.Push? && CrossesLiteral(s.parent, k)))
  }

  function WriteTarget(ws: set<Site>, before: Tracker, t: Tracker, pos: Pos, target: Target): (r: Tracker)
    ensures Outline(r.top) == Outline(t.top)
  {
    if Recorded(ws, before, target) then
      t.(top := SetIn(t.top, target.key, WrittenValue(t.top, target.key, pos, RhsBinding(ws, before, target.rhs).value)))
    else t
  }

  /** before is where all values are read; t gathers the writes. */
  function WriteTargets(ws: set<Site>, before: Tracker, t: Tracker, pos: Pos, targets: seq<Target>): (r: Tracker)
    ensures Outline(r.top) == Outline(t.top)
    decreases |targets|
  {
    if targets == [] then t
    else WriteTargets(ws, before, WriteTarget(ws, before, t, pos, targets[0]), pos, targets[1..])
  }

  predicate LosesWrite(ws: set<Site>, t: Tracker, target: Target) {
    && !Recorded(ws, t, target) && target.key !in t.captured && CrossesLiteral(t.top, target.key)
    && (Traceable(ws, target.key) || Touched(t.top, target.key))
  }

  function TargetHazards(ws: set<Site>, t: Tracker, pos: Pos, target: Target): seq<Entry> {
    (if target.rhs.Group? && target.key !in t.captured && Lookup(ws, t, target.rhs.parent).None?
     then [UnknownParent(pos, target.rhs.parent, target.key)] else [])
    + (if LosesWrite(ws, t, target) then [LostWrite(pos, target.key)] else [])
  }

  function Hazards(ws: set<Site>, t: Tracker, pos: Pos, targets: seq<Target>): seq<Entry>
    decreases |targets|
  {
    if targets == [] then [] else TargetHazards(ws, t, pos, targets[0]) + Hazards(ws, t, pos, targets[1..])
  }

  function Walk(ws: set<Site>, n: Node, t: Tracker): (r: Walked)
    ensures Outline(r.t.top) == Outline(t.top)
    decreases n, 1
  {
    match n
    case Call(pos, _, registrar, inner) =>
      var w := WalkIn(ws, inner, t);
      var own := if registrar.Some? then [Registration(pos, registrar.value, Lookup(ws, t, registrar.value))] else [];
      Walked(w.t, own + w.log)
    case Assign(pos, _, _, targets, inner) =>
      var w := WalkIn(ws, inner, t);
      Walked(WriteTargets(ws, t, w.t, pos, targets), Hazards(ws, t, pos, targets) + w.log)
    case Scope(_, _, _, _, header, body) =>
      var w := WalkIn(ws, header, Enter(t, n));
      var v := WalkIn(ws, body, w.t);
      Walked(Leave(v.t), w.log + v.log)
  }

  function WalkIn(ws: set<Site>, ns: Nodes, t: Tracker): (r: Walked)
    ensures Outline(r.t.top) == Outline(t.top)
    decreases ns, 0
  {
    match ns
    case Nil => Walked(t, [])
    case Cons(head, tail) =>
      var w := Walk(ws, head, t);
      var v := WalkIn(ws, tail, w.t);
      Walked(v.t, w.log + v.log)
  }
}
