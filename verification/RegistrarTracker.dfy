/**
 The state of the registrar analysis, and what each of its steps does to it.
 The tracker itself (RegistrarWalk) updates this state in place, driven by
 source positions; the functions here say what one step means.
 */
module RegistrarTracker {
  import opened Wrappers
  import opened RegistrarSyntax

  /** Why a prefix is unresolved; UnresolvedArgument also stands on every resolved one. */
  datatype Cause = UnresolvedArgument | PathDependent | Untraced

  /** What is known of a registrar: the groups it came through, put together. */
  datatype Prefix = Prefix(path: string, resolved: bool, cause: Cause)

  const PATH_DEPENDENT := Prefix("", false, PathDependent)
  const UNTRACED := Prefix("", false, Untraced)

  /** What is known inside one scope. */
  datatype Frame = Frame(
    kind: Kind,
    pos: Pos,
    end: Pos,
    declares: seq<Key>,
    values: map<Key, Prefix>,      // what was written here
    branchWrites: set<Key>,        // what some alternative wrote, held back from its siblings
    fallthroughWrites: set<Key>    // of those, what the next clause must doubt
  )

  /** The open frames, innermost first. */
  datatype Stack = Bottom(frame: Frame) | Push(frame: Frame, parent: Stack)

  datatype Tracker = Tracker(
    top: Stack,
    captured: set<Key>  // registrars a closure reassigns
  )

  function NewFrame(n: Node, values: map<Key, Prefix>): Frame
    requires n.Scope?
  {
    Frame(n.kind, n.pos, n.end, n.declares, values, {}, {})
  }

  /** Whatever no inner frame declares belongs to the outermost. */
  predicate Declares(f: Frame, k: Key) {
    f.kind.RootK? || k in f.declares
  }

  function WithValue(f: Frame, k: Key, v: Prefix): Frame {
    f.(values := f.values[k := v])
  }

  /** Whatever was written while f was innermost, or in one of its alternatives. */
  function WrittenKeys(f: Frame): set<Key> {
    f.values.Keys + f.branchWrites
  }

  function Blank(f: Frame): Frame {
    f.(values := map[], branchWrites := {}, fallthroughWrites := {})
  }

  /** The open scopes alone, without the writes they hold. */
  function Outline(s: Stack): Stack {
    match s
    case Bottom(f) => Bottom(Blank(f))
    case Push(f, parent) => Push(Blank(f), Outline(parent))
  }

  // ----- reading

  /** Runs of f may find k changed by one another: f can run again, and some write of k lies where f can reach it. */
  predicate ReassignedWhileRunning(ws: set<Site>, f: Frame, k: Key) {
    && IsRepeatable(f.kind)
    && k.from < RunStart(f.kind, f.pos)
    && exists s <- ws :: s.key == k && f.pos <= s.at && k.from < s.at && (f.kind.LitK? || s.at < f.end)
  }

  function LookupFrom(ws: set<Site>, s: Stack, k: Key, dependent: bool): Option<Prefix> {
    var now := dependent || ReassignedWhileRunning(ws, s.frame, k);
    if k in s.frame.values then Some(if now then PATH_DEPENDENT else s.frame.values[k])
    else match s
      case Bottom(_) => None
      case Push(_, parent) => LookupFrom(ws, parent, k, now)
  }

  /** The binding of k in effect; None when k is no known registrar. */
  function Lookup(ws: set<Site>, t: Tracker, k: Key): Option<Prefix> {
    LookupFrom(ws, t.top, k, k in t.captured)
  }

  predicate IsResolved(o: Option<Prefix>) {
    o.Some? && o.value.resolved
  }

  /** k is written with a value that can be traced somewhere in the body. */
  predicate Traceable(ws: set<Site>, k: Key) {
    exists s <- ws :: s.key == k && s.traceable
  }

  /** Some open scope holds a write of k. */
  predicate Touched(s: Stack, k: Key) {
    k in WrittenKeys(s.frame) || k in s.frame.fallthroughWrites || (s.Push? && Touched(s.parent, k))
  }

  // ----- entering and leaving scopes

  function OnTop(s: Stack, f: Frame): (r: Stack)
    ensures Blank(f) == Blank(s.frame) ==> Outline(r) == Outline(s)
  {
    match s
    case Bottom(_) => Bottom(f)
    case Push(_, parent) => Push(f, parent)
  }

  /** A clause after one that fell through sees what that one reassigned as path-dependent. */
  function Enter(t: Tracker, n: Node): (r: Tracker)
    requires n.Scope?
    ensures Outline(r.top) == Push(Blank(NewFrame(n, map[])), Outline(t.top))
  {
    var f := t.top.frame;
    var child := NewFrame(n, map k | k in f.fallthroughWrites :: PATH_DEPENDENT);
    t.(top := Push(child, OnTop(t.top, f.(fallthroughWrites := {}))))
  }

  /** Braces with no if, loop or function around them: nothing decides whether f runs. */
  predicate IsBareBlock(f: Frame, outer: Frame) {
    f.kind.BlockK? && (outer.kind.BlockK? || outer.kind.ClauseK?)
  }

  /** Whether running f excludes running its siblings. */
  predicate IsBranch(f: Frame, outer: Frame) {
    f.kind.ClauseK? || outer.kind.IfK?
  }

  predicate FallsThrough(f: Frame) {
    f.kind.ClauseK? && f.kind.falls
  }

  function Outward(f: Frame): set<Key> {
    set k | k in WrittenKeys(f) && !Declares(f, k)
  }

  /** A bare block's writes to outer registrars, taken over as they stand. */
  function Carry(outer: Frame, block: Frame): Frame {
    outer.(values := outer.values + (map k | k in block.values && !Declares(block, k) :: block.values[k]))
  }

  /** A nested scope reassigned keys: path-dependent from here on, or once f is left. */
  function Reassigned(f: Frame, keys: set<Key>, inBranch: bool): Frame {
    if inBranch then f.(branchWrites := f.branchWrites + keys)
    else f.(values := f.values + (map k | k in keys :: PATH_DEPENDENT))
  }

  function FellThrough(f: Frame, keys: set<Key>): Frame {
    f.(fallthroughWrites := f.fallthroughWrites + keys)
  }

  function LeaveInto(outer: Frame, left: Frame): Frame {
    if IsBareBlock(left, outer) then Carry(outer, left)
    else
      var f := Reassigned(outer, Outward(left), IsBranch(left, outer));
      if FallsThrough(left) then FellThrough(f, Outward(left)) else f
  }

  /** Pops the innermost frame. */
  function Leave(t: Tracker): (r: Tracker)
    requires t.top.Push?
    ensures Outline(r.top) == Outline(t.top.parent)
  {
    var left := t.top.frame;
    Tracker(OnTop(t.top.parent, LeaveInto(t.top.parent.frame, left)),
            if left.kind.LitK? then t.captured + Outward(left) else t.captured)
  }

  // ----- writing

  /** Kinds whose header runs unconditionally. */
  predicate IsHeader(kind: Kind) {
    kind.IfK? || kind.SwitchK?
  }

  /**
   A write at pos, made in the innermost scope of s, is not the last word on k:
   something between there and k's scope runs again, or k is a three-clause
   loop's own variable, and this is not its init.
   */
  predicate CarriedAcrossRuns(s: Stack, k: Key, pos: Pos) {
    if Declares(s.frame, k) then s.frame.kind.ForK? && k.from <= pos
    else IsRepeatable(s.frame.kind) || (s.Push? && CarriedAcrossRuns(s.parent, k, pos))
  }

  /** The write belongs to the enclosing scope: a header's, to an outer registrar. */
  predicate LandsOutside(s: Stack, k: Key) {
    s.Push? && IsHeader(s.frame.kind) && !Declares(s.frame, k)
  }

  /** The value a write of v leaves, and where: it may be path-dependent from the start. */
  function WrittenValue(s: Stack, k: Key, pos: Pos, v: Prefix): Prefix {
    var from := if LandsOutside(s, k) then s.parent else s;
    if CarriedAcrossRuns(from, k, pos) then PATH_DEPENDENT else v
  }

  function SetIn(s: Stack, k: Key, v: Prefix): (r: Stack)
    ensures Outline(r) == Outline(s)
  {
    if LandsOutside(s, k) then Push(s.frame, OnTop(s.parent, WithValue(s.parent.frame, k, v)))
    else OnTop(s, WithValue(s.frame, k, v))
  }

  /** The binding an assigned expression carries; traced is false when the walk cannot follow it. */
  datatype Traced = Traced(value: Prefix, traced: bool)

  function RhsBinding(ws: set<Site>, t: Tracker, rhs: Rhs): Traced {
    match rhs
    case Group(parent, arg) =>
      var inherited := match Lookup(ws, t, parent)
                       case Some(p) => p
                       case None => Prefix("", true, UnresolvedArgument);
      var value := if arg.Some? then arg.value else "";
      Traced(Prefix(inherited.path + value, inherited.resolved && arg.Some?, inherited.cause), true)
    case Copy(source) =>
      (match Lookup(ws, t, source)
       case Some(p) => Traced(p, true)
       case None => Traced(UNTRACED, false))
    case Opaque => Traced(UNTRACED, false)
  }

  /** A write is recorded when its value is traced or its variable already is a registrar. */
  predicate Recorded(ws: set<Site>, t: Tracker, target: Target) {
    RhsBinding(ws, t, target.rhs).traced || Lookup(ws, t, target.key).Some?
  }
}
