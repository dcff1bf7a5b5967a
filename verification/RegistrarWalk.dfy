/**
 The tracker and the route walk over one function body, updating their state
 in place.
 */
module RegistrarWalk {
  import opened Wrappers
  import opened RegistrarSyntax
  import opened RegistrarTracker
  import opened RegistrarStructure
  import opened RegistrarInvariants
  import opened RegistrarNotes
  import opened RegistrarSemantics
  import opened RegistrarClaims
  import opened RegistrarLazy
  import opened RegistrarRefinement
  import opened RegistrarTrust
  import C = RegistrarCertain
  import opened RegistrarTheorem

  // ----- the open frames as a stack

  /** The stack of frames listed from the signature's inward. */
  function StackOf(fs: seq<Frame>): (s: Stack)
    requires |fs| > 0
    ensures s.frame == fs[|fs| - 1] && (s.Push? <==> |fs| > 1)
    decreases |fs|
  {
    if |fs| == 1 then Bottom(fs[0]) else Push(fs[|fs| - 1], StackOf(fs[..|fs| - 1]))
  }

  lemma {:induction false} StackHeight(fs: seq<Frame>)
    requires |fs| > 0
    ensures Height(StackOf(fs)) == |fs| - 1
    decreases |fs|
  {
    if |fs| > 1 {
      StackHeight(fs[..|fs| - 1]);
    }
  }

  lemma {:induction false} StackSet(fs: seq<Frame>, h: nat, k: Key, v: Prefix)
    requires h < |fs|
    ensures StackOf(fs[h := WithValue(fs[h], k, v)]) == SetAt(StackOf(fs), h, k, v)
    decreases |fs|
  {
    var gs := fs[h := WithValue(fs[h], k, v)];
    StackHeight(fs);
    if h == |fs| - 1 {
      assert gs[..|gs| - 1] == fs[..|fs| - 1];
    } else {
      assert gs[..|gs| - 1] == fs[..|fs| - 1][h := WithValue(fs[h], k, v)];
      StackSet(fs[..|fs| - 1], h, k, v);
    }
  }

  lemma StackTop(fs: seq<Frame>, f: Frame)
    requires |fs| > 0
    ensures StackOf(fs[|fs| - 1 := f]) == OnTop(StackOf(fs), f)
  {
    var gs := fs[|fs| - 1 := f];
    assert gs[..|gs| - 1] == fs[..|fs| - 1];
  }

  lemma StackPush(fs: seq<Frame>, f: Frame)
    requires |fs| > 0
    ensures StackOf(fs + [f]) == Push(f, StackOf(fs))
  {
    assert (fs + [f])[..|fs|] == fs;
  }

  lemma StackLeave(fs: seq<Frame>, captured: set<Key>)
    requires |fs| > 1
    ensures var f := fs[|fs| - 1];
            Leave(Tracker(StackOf(fs), captured))
            == Tracker(StackOf(fs[..|fs| - 1][|fs| - 2 := LeaveInto(fs[|fs| - 2], f)]), if f.kind.LitK? then captured + Outward(f) else captured)
  {
    StackTop(fs[..|fs| - 1], LeaveInto(fs[|fs| - 2], fs[|fs| - 1]));
  }

  /** A frame after a scope nested in it, which wrote keys, is left. */
  function Took(f: Frame, keys: set<Key>, inBranch: bool, falls: bool): Frame {
    var g := Reassigned(f, keys, inBranch);
    if falls then FellThrough(g, keys) else g
  }

  lemma TookNothing(f: Frame, inBranch: bool, falls: bool)
    ensures Took(f, {}, inBranch, falls) == f
  {
  }

  function Dependent(keys: set<Key>): map<Key, Prefix> {
    map k | k in keys :: PATH_DEPENDENT
  }

  lemma DependentMore(values: map<Key, Prefix>, keys: set<Key>, more: set<Key>)
    ensures values + Dependent(keys + more) == (values + Dependent(keys)) + Dependent(more)
  {
  }

  lemma TookMore(f: Frame, keys: set<Key>, key: Key, inBranch: bool, falls: bool)
    ensures var g := Reassigned(Took(f, keys, inBranch, falls), {key}, inBranch);
            Took(f, keys + {key}, inBranch, falls)
            == if falls then g.(fallthroughWrites := g.fallthroughWrites + {key}) else g
  {
    var more := {key};
    DependentMore(f.values, keys, more);
    assert Reassigned(f, keys + more, inBranch) ==
           if inBranch then f.(branchWrites := f.branchWrites + (keys + more)) else f.(values := f.values + Dependent(keys + more));
    assert f.branchWrites + (keys + more) == f.branchWrites + keys + more;
    assert f.fallthroughWrites + (keys + more) == f.fallthroughWrites + keys + more;
  }

  /** What is left once the writes before the i-th are dealt with. */
  function Remaining(t: RegistrarTracker.Tracker, ps: seq<Pending>, i: nat, pos: Pos): Lazy
    requires i <= |ps|
  {
    Lazy(ApplyDue(t, ps[i..], pos), NotDue(ps[i..], pos))
  }

  lemma RemainingEnds(t: RegistrarTracker.Tracker, ps: seq<Pending>, pos: Pos)
    ensures Remaining(t, ps, 0, pos) == Lazy(ApplyDue(t, ps, pos), NotDue(ps, pos))
    ensures Remaining(t, ps, |ps|, pos) == Lazy(t, [])
  {
    assert ps[0..] == ps && ps[|ps|..] == [];
  }

  lemma RemainingStep(t: RegistrarTracker.Tracker, ps: seq<Pending>, i: nat, pos: Pos, kept: seq<Pending>)
    requires i < |ps|
    ensures var due := ps[i].at <= pos;
            var rest := Remaining(if due then Apply(t, ps[i]) else t, ps, i + 1, pos);
            && Remaining(t, ps, i, pos).t == rest.t
            && kept + Remaining(t, ps, i, pos).pending == (kept + if due then [] else [ps[i]]) + rest.pending
  {
    assert ps[i..][1..] == ps[i + 1..];
  }

  /** The writes of an assignment from its i-th target on. */
  function PendingFrom(ws: set<Site>, t: RegistrarTracker.Tracker, n: Node, i: nat): seq<Pending>
    requires n.Assign? && i <= |n.targets|
  {
    PendingAll(ws, t, n.pos, n.end, n.targets[i..])
  }

  lemma PendingFromEnds(ws: set<Site>, t: RegistrarTracker.Tracker, n: Node, waiting: seq<Pending>)
    requires n.Assign?
    ensures PendingFrom(ws, t, n, 0) == PendingAll(ws, t, n.pos, n.end, n.targets)
    ensures waiting + PendingFrom(ws, t, n, |n.targets|) == waiting
  {
    assert n.targets[0..] == n.targets && n.targets[|n.targets|..] == [];
  }

  lemma PendingFromStep(ws: set<Site>, t: RegistrarTracker.Tracker, n: Node, i: nat, waiting: seq<Pending>)
    requires n.Assign? && i < |n.targets|
    ensures var x := n.targets[i];
            var bound := RhsBinding(ws, t, x.rhs);
            waiting + PendingFrom(ws, t, n, i)
            == (if bound.traced || Lookup(ws, t, x.key).Some?
                then waiting + [Pending(n.end, WriteHeight(t.top, x.key), x.key, WrittenValue(t.top, x.key, n.pos, bound.value))]
                else waiting)
               + PendingFrom(ws, t, n, i + 1)
  {
    assert n.targets[i..][1..] == n.targets[i + 1..];
  }

  /** Which frame a write goes to, and what it leaves there. */
  lemma WritePlace(fs: seq<Frame>, key: Key, pos: Pos, value: Prefix)
    requires |fs| > 0 && (|fs| == 1 ==> fs[0].kind.RootK?)
    ensures var h := if IsHeader(fs[|fs| - 1].kind) && !Declares(fs[|fs| - 1], key) then |fs| - 2 else |fs| - 1;
            && h >= 0 && WriteHeight(StackOf(fs), key) == h
            && WrittenValue(StackOf(fs), key, pos, value) == if CarriedAcrossRuns(StackOf(fs[..h + 1]), key, pos) then PATH_DEPENDENT else value
  {
    StackHeight(fs);
    assert fs[..|fs|] == fs;
    if |fs| > 1 {
      StackHeight(fs[..|fs| - 1]);
    }
  }

  // ----- one scope

  class RegistrarFrame {
    const kind: Kind
    const pos: Pos
    const end: Pos
    const declares: seq<Key>
    const parent: RegistrarFrame?
    var values: map<Key, Prefix>
    var branchWrites: set<Key>
    var fallthroughWrites: set<Key>

    constructor (kind: Kind, pos: Pos, end: Pos, declares: seq<Key>, parent: RegistrarFrame?, values: map<Key, Prefix>)
      ensures Shown() == Frame(kind, pos, end, declares, values, {}, {}) && this.parent == parent
    {
      this.kind, this.pos, this.end, this.declares, this.parent := kind, pos, end, declares, parent;
      this.values, branchWrites, fallthroughWrites := values, {}, {};
    }

    function Shown(): Frame
      reads this
    {
      Frame(kind, pos, end, declares, values, branchWrites, fallthroughWrites)
    }

    method Set(key: Key, value: Prefix)
      modifies this
      ensures Shown() == WithValue(old(Shown()), key, value)
    {
      values := values[key := value];
    }

    method SetAll(keys: set<Key>, value: Prefix)
      modifies this
      ensures Shown() == old(Shown()).(values := old(values) + map k | k in keys :: value)
    {
      var left := keys;
      while left != {}
        invariant left <= keys
        invariant Shown() == old(Shown()).(values := old(values) + map k | k in keys - left :: value)
        decreases left
      {
        var key :| key in left;
        Set(key, value);
        left := left - {key};
      }
    }

    /** What a nested scope reassigned: path-dependent at once, or once this frame is left. */
    method Reassign(key: Key, inBranch: bool)
      modifies this
      ensures Shown() == Reassigned(old(Shown()), {key}, inBranch)
    {
      if !inBranch {
        Set(key, PATH_DEPENDENT);
      } else {
        branchWrites := branchWrites + {key};
      }
    }

    method TakeOver(block: RegistrarFrame)
      requires block != this
      modifies this
      ensures Shown() == Carry(old(Shown()), block.Shown())
    {
      var left := block.values.Keys;
      while left != {}
        invariant left <= block.values.Keys
        invariant Shown() == old(Shown()).(values := old(values)
                    + map k | k in block.values && k !in left && !Declares(block.Shown(), k) :: block.values[k])
        decreases left
      {
        var key :| key in left;
        if !Declares(block.Shown(), key) {
          Set(key, block.values[key]);
        }
        left := left - {key};
      }
    }

    /** Notes every write of a nested scope to a registrar declared outside it. */
    method TakeWrites(left: RegistrarFrame, inBranch: bool, falls: bool) returns (outward: set<Key>)
      requires left != this
      modifies this
      ensures outward == Outward(left.Shown())
      ensures Shown() == Took(old(Shown()), outward, inBranch, falls)
    {
      var keys := left.values.Keys + left.branchWrites;
      outward := {};
      TookNothing(Shown(), inBranch, falls);
      hide Took, Reassigned;
      while keys != {}
        invariant outward !! keys && outward <= Outward(left.Shown()) <= outward + keys
        invariant Shown() == Took(old(Shown()), outward, inBranch, falls)
        decreases keys
      {
        var key :| key in keys;
        keys := keys - {key};
        if !Declares(left.Shown(), key) && key in left.values.Keys + left.branchWrites {
          TookMore(old(Shown()), outward, key, inBranch, falls);
          Reassign(key, inBranch);
          if falls {
            fallthroughWrites := fallthroughWrites + {key};
          }
          outward := outward + {key};
        }
      }
    }

    /** Hands child what this frame's last clause fell through with. */
    method Begin(child: RegistrarFrame)
      requires child != this
      modifies this, child
      ensures Shown() == old(Shown()).(fallthroughWrites := {})
      ensures child.Shown() == old(child.Shown()).(values := old(child.values) + map k | k in old(fallthroughWrites) :: PATH_DEPENDENT)
    {
      child.SetAll(fallthroughWrites, PATH_DEPENDENT);
      fallthroughWrites := {};
    }
  }

  datatype PendingWrite = PendingWrite(at: Pos, frame: RegistrarFrame, key: Key, value: Prefix)

  /** Every waiting write's frame is open, and ends no earlier than the write. */
  ghost predicate AllOpen(ps: seq<PendingWrite>, hs: seq<nat>, open: seq<RegistrarFrame>) {
    && |hs| == |ps|
    && (forall i | 0 <= i < |ps| ::
          && hs[i] < |open| && ps[i].frame == open[hs[i]]
          && (hs[i] > 0 ==> ps[i].at <= open[hs[i]].end))
  }

  lemma OpenAt(ps: seq<PendingWrite>, hs: seq<nat>, open: seq<RegistrarFrame>, i: nat)
    requires AllOpen(ps, hs, open) && i < |ps|
    ensures hs[i] < |open| && ps[i].frame == open[hs[i]] && ps[i].frame in open
    ensures hs[i] > 0 ==> ps[i].at <= open[hs[i]].end
  {
  }

  lemma OpenMore(ps: seq<PendingWrite>, hs: seq<nat>, open: seq<RegistrarFrame>, p: PendingWrite, h: nat)
    requires AllOpen(ps, hs, open)
    requires h < |open| && p.frame == open[h] && (h > 0 ==> p.at <= open[h].end)
    ensures AllOpen(ps + [p], hs + [h], open)
    ensures Numbered(ps + [p], hs + [h]) == Numbered(ps, hs) + [Pending(p.at, h, p.key, p.value)]
  {
  }

  /** No write waits for a scope that ended before all of them. */
  lemma NoneAtTop(ps: seq<PendingWrite>, hs: seq<nat>, open: seq<RegistrarFrame>, at: Pos)
    requires AllOpen(ps, hs, open) && |open| > 1 && open[|open| - 1].end <= at && forall p <- ps :: at < p.at
    ensures |hs| == |ps| && forall i | 0 <= i < |ps| :: hs[i] < |open| - 1
  {
    forall i | 0 <= i < |ps| ensures hs[i] < |open| - 1 {
      assert ps[i] in ps;
    }
  }

  /** The waiting writes, with their frames named by place. */
  ghost function Numbered(ps: seq<PendingWrite>, hs: seq<nat>): (r: seq<Pending>)
    requires |hs| == |ps|
    ensures |r| == |ps|
  {
    seq(|ps|, i requires 0 <= i < |ps| => Pending(ps[i].at, hs[i], ps[i].key, ps[i].value))
  }

  /** The frames form a chain from the signature's inward. */
  ghost predicate Chained(open: seq<RegistrarFrame>) {
    && |open| > 0 && open[0].parent == null && open[0].kind.RootK?
    && (forall i, j | 0 <= i < j < |open| :: open[i] != open[j])
    && (forall i | 0 < i < |open| :: IsChild(open[i - 1], open[i]))
  }

  predicate IsChild(outer: RegistrarFrame, f: RegistrarFrame) {
    f.parent == outer && !f.kind.RootK?
  }

  lemma ChainEnd(open: seq<RegistrarFrame>)
    requires Chained(open)
    ensures |open| > 1 <==> open[|open| - 1].parent != null
    ensures |open| > 1 ==> open[|open| - 1].parent == open[|open| - 2] && !open[|open| - 1].kind.RootK?
    ensures |open| > 1 ==> Chained(open[..|open| - 1])
  {
    if |open| > 1 {
      assert IsChild(open[|open| - 2], open[|open| - 1]);
    }
  }

  /** The chain that ends in top, all of its frames among those opened so far. */
  ghost predicate Linked(open: seq<RegistrarFrame>, top: RegistrarFrame, repr: set<RegistrarFrame>) {
    Chained(open) && top == open[|open| - 1] && forall i | 0 <= i < |open| :: open[i] in repr
  }

  lemma LinkMore(open: seq<RegistrarFrame>, top: RegistrarFrame, repr: set<RegistrarFrame>, f: RegistrarFrame)
    requires Linked(open, top, repr) && f !in repr && IsChild(top, f)
    ensures Linked(open + [f], f, repr + {f})
  {
  }

  lemma OpenGrows(ps: seq<PendingWrite>, hs: seq<nat>, open: seq<RegistrarFrame>, f: RegistrarFrame)
    requires AllOpen(ps, hs, open)
    ensures AllOpen(ps, hs, open + [f])
  {
  }

  // ----- the tracker

  class Tracking {
    var top: RegistrarFrame
    const writes: set<Site>
    var captured: set<Key>
    var pending: seq<PendingWrite>
    ghost var open: seq<RegistrarFrame>  // the signature's frame first
    ghost var repr: set<RegistrarFrame>  // every frame opened so far
    ghost var heights: seq<nat>          // where in open each waiting write's frame is

    /** The frames form a chain, and every waiting write's frame is open and ends no earlier than the write. */
    ghost predicate Valid()
      reads this, open
    {
      && Linked(open, top, repr)
      && AllOpen(pending, heights, open)
    }

    ghost function Frames(): seq<Frame>
      reads this, open
    {
      seq(|open|, i requires 0 <= i < |open| reads this, open => open[i].Shown())
    }

    ghost function Waiting(): seq<Pending>
      reads this
      requires |heights| == |pending|
    {
      Numbered(pending, heights)
    }

    /** The state the tracker stands for. */
    ghost function State(): Lazy
      reads this, open
      requires Valid()
    {
      Lazy(Tracker(StackOf(Frames()), captured), Waiting())
    }

    constructor (body: Node, params: seq<Key>, seeds: map<Key, Prefix>)
      ensures Valid() && fresh(repr) && writes == Sites(body)
      ensures State() == Lazy(Start(body, params, seeds), [])
    {
      var root := new RegistrarFrame(RootK, body.pos, body.end, params, null, seeds);
      top := root;
      writes := Sites(body);
      captured := {};
      pending := [];
      open := [root];
      repr := {root};
      heights := [];
    }

    /** Applies one waiting write. */
    method ApplyWrite(i: nat)
      requires Valid() && i < |pending|
      modifies pending[i].frame
      ensures Valid() && State() == old(State()).(t := Apply(old(State()).t, old(Waiting())[i]))
    {
      ghost var fs, h := Frames(), heights[i];
      pending[i].frame.Set(pending[i].key, pending[i].value);
      assert Frames() == fs[h := WithValue(fs[h], pending[i].key, pending[i].value)];
      StackSet(fs, h, pending[i].key, pending[i].value);
    }

    method SetWaiting(kept: seq<PendingWrite>, ghost keptHeights: seq<nat>)
      requires Valid() && AllOpen(kept, keptHeights, open)
      modifies this
      ensures Valid() && repr == old(repr) && open == old(open) && top == old(top) && pending == kept && heights == keptHeights
      ensures State() == old(State()).(pending := Numbered(kept, keptHeights))
    {
      ghost var fs := Frames();
      pending := kept;
      heights := keptHeights;
      assert Frames() == fs;
    }

    /** Applies the i-th waiting write when it is due, and keeps it otherwise. */
    method ApplyOrKeep(i: nat, at: Pos, kept: seq<PendingWrite>, ghost hs: seq<nat>) returns (rest: seq<PendingWrite>, ghost gs: seq<nat>)
      requires Valid() && i < |pending| && AllOpen(kept, hs, open) && forall p <- kept :: at < p.at
      modifies pending[i].frame
      ensures Valid() && AllOpen(rest, gs, open) && forall p <- rest :: at < p.at
      ensures var p := old(State()).pending[i];
              && State() == old(State()).(t := if p.at <= at then Apply(old(State()).t, p) else old(State()).t)
              && Numbered(rest, gs) == Numbered(kept, hs) + if p.at <= at then [] else [p]
    {
      rest, gs := kept, hs;
      if pending[i].at <= at {
        ApplyWrite(i);
      } else {
        OpenAt(pending, heights, open, i);
        OpenMore(kept, hs, open, pending[i], heights[i]);
        rest, gs := kept + [pending[i]], hs + [heights[i]];
      }
    }

    lemma FrameIsOpen(i: nat)
      requires Valid() && i < |pending|
      ensures pending[i].frame in open && |pending| == |State().pending|
    {
      OpenAt(pending, heights, open, i);
    }

    lemma FramesCount()
      requires Valid()
      ensures |pending| == |State().pending|
    {
    }

    /** Empties the queue up to at. */
    method ApplyWritesDue(at: Pos)
      requires Valid()
      modifies this, open
      ensures Valid() && repr == old(repr) && open == old(open) && top == old(top)
      ensures State() == Lazy(ApplyDue(old(State()).t, old(State()).pending, at), NotDue(old(State()).pending, at))
      ensures forall p <- pending :: at < p.at
    {
      var kept: seq<PendingWrite>, i := [], 0;
      ghost var hs: seq<nat>, before := [], State();
      FramesCount();
      RemainingEnds(before.t, before.pending, at);
      assert AllOpen([], [], open) && Numbered([], []) == [];
      hide StackOf, Apply, ApplyDue, NotDue, AllOpen, Numbered, Remaining, Tracking.Valid, Tracking.State, Tracking.Frames;
      while i < |pending|
        invariant 0 <= i <= |pending|
        invariant Valid() && AllOpen(kept, hs, open) && State().pending == before.pending && forall p <- kept :: at < p.at
        invariant repr == old(repr) && open == old(open) && top == old(top) && pending == old(pending)
        invariant ApplyDue(before.t, before.pending, at) == Remaining(State().t, before.pending, i, at).t
        invariant NotDue(before.pending, at) == Numbered(kept, hs) + Remaining(State().t, before.pending, i, at).pending
      {
        RemainingStep(State().t, before.pending, i, at, Numbered(kept, hs));
        FrameIsOpen(i);
        kept, hs := ApplyOrKeep(i, at, kept, hs);
        i := i + 1;
      }
      RemainingEnds(State().t, before.pending, at);
      SetWaiting(kept, hs);
    }

    /** Hands what the innermost frame wrote to the one around it. */
    method HandOver(outer: RegistrarFrame)
      requires Valid() && |open| > 1 && outer == open[|open| - 2]
      modifies this`captured, outer
      ensures outer.Shown() == LeaveInto(old(outer.Shown()), top.Shown())
      ensures captured == if top.kind.LitK? then old(captured) + Outward(top.Shown()) else old(captured)
    {
      assert outer != top;
      if top.kind.BlockK? && (outer.kind.BlockK? || outer.kind.ClauseK?) {
        outer.TakeOver(top);
      } else {
        var outward := outer.TakeWrites(top, top.kind.ClauseK? || outer.kind.IfK?, top.kind.ClauseK? && top.kind.falls);
        if top.kind.LitK? {
          captured := captured + outward;
        }
      }
    }

    /** Pops the innermost frame. */
    method Pop()
      requires Valid() && |open| > 1
      requires forall i | 0 <= i < |pending| :: heights[i] < |open| - 1
      modifies this, open
      ensures Valid() && repr == old(repr) && open == old(open)[..|old(open)| - 1] && pending == old(pending) && heights == old(heights)
      ensures State() == Lazy(Leave(old(State()).t), old(State()).pending)
    {
      hide LeaveInto, Leave, StackOf, Outward;
      ghost var fs := Frames();
      ChainEnd(open);
      var outer := top.parent;
      HandOver(outer);
      top := outer;
      open := open[..|open| - 1];
      assert Frames() == fs[..|fs| - 1][|fs| - 2 := LeaveInto(fs[|fs| - 2], fs[|fs| - 1])];
      StackLeave(fs, old(captured));
    }

    lemma LeaveTop()
      requires Valid() && |open| > 1
      ensures State().t.top.Push? && State().t.top.frame.end == top.end
    {
    }

    /** Leaves every scope that ended before at. */
    method LeaveScopesEnded(at: Pos)
      requires Valid() && forall p <- pending :: at < p.at
      modifies this, open
      ensures Valid() && repr == old(repr) && |open| <= |old(open)| && open == old(open)[..|open|]
      ensures State() == Lazy(LeaveEnded(old(State()).t, at), old(State()).pending)
    {
      ChainEnd(open);
      hide StackOf, Chained, AllOpen, Tracking.Frames, Numbered, Leave;
      while top.parent != null && top.end <= at
        invariant Valid() && repr == old(repr) && |open| <= |old(open)| && open == old(open)[..|open|]
        invariant pending == old(pending) && heights == old(heights)
        invariant LeaveEnded(old(State()).t, at) == LeaveEnded(State().t, at)
        decreases |open|
      {
        ChainEnd(open);
        NoneAtTop(pending, heights, open, at);
        LeaveTop();
        Pop();
      }
      ChainEnd(open);
    }

    /** Enters the scope n introduces. */
    method EnterScope(n: Node)
      requires Valid() && n.Scope? && !n.kind.RootK?
      modifies this, top
      ensures Valid() && |open| == |old(open)| + 1 && open[..|old(open)|] == old(open) && repr == old(repr) + {top} && fresh(top)
      ensures State() == Lazy(Enter(old(State()).t, n), old(State()).pending)
    {
      hide StackOf, Numbered, Sites, SitesIn;
      ghost var fs, f := Frames(), top.Shown();
      var frame := new RegistrarFrame(n.kind, n.pos, n.end, n.declares, top, map[]);
      ghost var outer := f.(fallthroughWrites := {});
      top.Begin(frame);
      LinkMore(open, top, repr, frame);
      OpenGrows(pending, heights, open, frame);
      hide Linked, AllOpen;
      open := open + [frame];
      repr := repr + {frame};
      top := frame;
      assert frame.Shown() == NewFrame(n, map k | k in f.fallthroughWrites :: PATH_DEPENDENT);
      assert Frames() == fs[|fs| - 1 := outer] + [frame.Shown()];
      StackTop(fs, outer);
      StackPush(fs[|fs| - 1 := outer], frame.Shown());
    }

    /** Moves to node n: applies every write that has taken effect, leaves every scope that has ended, enters n's. */
    method AdvanceTo(n: Node)
      requires Valid() && (n.Scope? ==> !n.kind.RootK?)
      modifies this, repr
      ensures Valid() && fresh(repr - old(repr))
      ensures State() == Advance(old(State()), n)
    {
      hide ApplyDue, NotDue, LeaveEnded, Enter, StackOf, AllOpen, Numbered;
      ApplyWritesDue(n.pos);
      LeaveScopesEnded(n.pos);
      if n.Scope? {
        EnterScope(n);
      }
    }

    // ----- reading

    lemma FramesUpTo(i: nat)
      requires Valid() && 0 < i <= |open|
      ensures StackOf(Frames()[..i]).frame == open[i - 1].Shown()
      ensures i > 1 ==> StackOf(Frames()[..i]).Push? && StackOf(Frames()[..i]).parent == StackOf(Frames()[..i - 1])
      ensures open[i - 1].parent == if i == 1 then null else open[i - 2]
      ensures i == 1 ==> StackOf(Frames()[..i]).Bottom?
    {
      if i > 1 {
        assert IsChild(open[i - 2], open[i - 1]);
        assert Frames()[..i][..i - 1] == Frames()[..i - 1];
      }
    }

    /** Reads key where the tracker stands. */
    method Find(key: Key) returns (binding: Option<Prefix>)
      requires Valid()
      ensures binding == Lookup(writes, State().t, key)
    {
      var dependent, f: RegistrarFrame? := key in captured, top;
      ghost var i := |open|;
      assert Frames()[..i] == Frames();
      hide Chained, AllOpen;
      while f != null
        invariant 0 <= i <= |open| && (f == if i == 0 then null else open[i - 1])
        invariant Lookup(writes, State().t, key) == if i == 0 then None else LookupFrom(writes, StackOf(Frames()[..i]), key, dependent)
        decreases i
      {
        FramesUpTo(i);
        dependent := dependent || ReassignedWhileRunning(writes, f.Shown(), key);
        if key in f.values {
          return Some(if dependent then PATH_DEPENDENT else f.values[key]);
        }
        f := f.parent;
        i := i - 1;
      }
      return None;
    }

    /** Searches outward from frame for the one that declares key. */
    method Carried(frame: RegistrarFrame, ghost at: nat, key: Key, pos: Pos) returns (carried: bool)
      requires Valid() && at < |open| && frame == open[at]
      ensures carried == CarriedAcrossRuns(StackOf(Frames()[..at + 1]), key, pos)
    {
      var f := frame;
      ghost var i := at + 1;
      hide AllOpen;
      while true
        invariant 0 < i <= |open| && f == open[i - 1]
        invariant CarriedAcrossRuns(StackOf(Frames()[..at + 1]), key, pos) == CarriedAcrossRuns(StackOf(Frames()[..i]), key, pos)
        decreases i
      {
        FramesUpTo(i);
        if Declares(f.Shown(), key) {
          return f.kind.ForK? && key.from <= pos;
        }
        if IsRepeatable(f.kind) {
          return true;
        }
        f := f.parent;
        i := i - 1;
      }
    }

    // ----- writing

    /** The frames a write to the current scope or its header may land in end no earlier than at. */
    ghost predicate Reaches(at: Pos)
      reads this, open
      requires Valid()
    {
      forall i | 0 < i < |open| && |open| - 2 <= i :: at <= open[i].end
    }

    lemma Reachable(at: Pos, i: nat)
      requires Valid() && Reaches(at) && 0 < i < |open| && |open| - 2 <= i
      ensures at <= open[i].end
    {
    }

    /** The frame a write belongs to: the current one, or, from a header, the one around it. */
    method Place(key: Key) returns (frame: RegistrarFrame, ghost h: nat)
      requires Valid()
      ensures |open| - 2 <= h < |open| && frame == open[h] && h == WriteHeight(State().t.top, key)
      ensures forall pos: Pos, value: Prefix ::
                WrittenValue(State().t.top, key, pos, value)
                == if CarriedAcrossRuns(StackOf(Frames()[..h + 1]), key, pos) then PATH_DEPENDENT else value
    {
      ghost var fs := Frames();
      ChainEnd(open);
      WritePlace(fs, key, 0, UNTRACED);
      forall pos: Pos, value: Prefix
        ensures var h := if IsHeader(fs[|fs| - 1].kind) && !Declares(fs[|fs| - 1], key) then |fs| - 2 else |fs| - 1;
                && h >= 0 && WriteHeight(StackOf(fs), key) == h
                && WrittenValue(StackOf(fs), key, pos, value) == if CarriedAcrossRuns(StackOf(fs[..h + 1]), key, pos) then PATH_DEPENDENT else value
      {
        WritePlace(fs, key, pos, value);
      }
      assert fs[|fs| - 1] == top.Shown();
      hide StackOf, CarriedAcrossRuns, WriteHeight, WrittenValue, AllOpen;
      frame := top;
      h := |open| - 1;
      if IsHeader(frame.kind) && !Declares(frame.Shown(), key) {
        frame := frame.parent;
        h := h - 1;
      }
    }

    /** Queues a write for position at, path-dependent from the start where another run may see it. */
    method Assign(key: Key, pos: Pos, at: Pos, value: Prefix)
      requires Valid() && Reaches(at)
      modifies this`pending, this`heights
      ensures Valid() && State().t == old(State()).t
      ensures State().pending == old(State()).pending
                                 + [Pending(at, WriteHeight(old(State()).t.top, key), key, WrittenValue(old(State()).t.top, key, pos, value))]
    {
      hide StackOf, CarriedAcrossRuns, WriteHeight, WrittenValue, Linked, AllOpen, Numbered, Tracking.Frames;
      var frame, h := Place(key);
      var carried := Carried(frame, h, key, pos);
      if h > 0 {
        Reachable(at, h);
      }
      Wait(PendingWrite(at, frame, key, if carried then PATH_DEPENDENT else value), h);
    }

    method Wait(write: PendingWrite, ghost h: nat)
      requires Valid() && h < |open| && write.frame == open[h] && (h > 0 ==> write.at <= open[h].end)
      modifies this`pending, this`heights
      ensures Valid() && State() == old(State()).(pending := old(State()).pending + [Pending(write.at, h, write.key, write.value)])
    {
      hide StackOf, Linked, AllOpen;
      ghost var fs := Frames();
      OpenMore(pending, heights, open, write, h);
      pending := pending + [write];
      heights := heights + [h];
      assert Frames() == fs;
    }

    /** The binding an assigned expression carries. */
    method ValueOf(rhs: Rhs) returns (bound: Traced)
      requires Valid()
      ensures bound == RhsBinding(writes, State().t, rhs)
    {
      match rhs
      case Group(parent, arg) =>
        var known := Find(parent);
        var inherited := match known case Some(p) => p case None => Prefix("", true, UnresolvedArgument);
        var value := if arg.Some? then arg.value else "";
        bound := Traced(Prefix(inherited.path + value, inherited.resolved && arg.Some?, inherited.cause), true);
      case Copy(source) =>
        var known := Find(source);
        bound := match known case Some(p) => Traced(p, true) case None => Traced(UNTRACED, false);
      case Opaque =>
        bound := Traced(UNTRACED, false);
    }

    method ValuesOf(targets: seq<Target>) returns (values: seq<Traced>)
      requires Valid()
      ensures |values| == |targets| && forall j | 0 <= j < |targets| :: values[j] == RhsBinding(writes, State().t, targets[j].rhs)
    {
      var i := 0;
      values := [];
      hide StackOf, Linked, AllOpen, Tracking.Frames, RhsBinding, Numbered;
      while i < |targets|
        invariant 0 <= i <= |targets| && |values| == i
        invariant forall j | 0 <= j < i :: values[j] == RhsBinding(writes, State().t, targets[j].rhs)
      {
        var bound := ValueOf(targets[i].rhs);
        values := values + [bound];
        i := i + 1;
      }
    }

    /** Records a write when its value is traced or its variable already is a registrar. */
    method RecordOne(key: Key, pos: Pos, at: Pos, bound: Traced)
      requires Valid() && Reaches(at)
      modifies this`pending, this`heights
      ensures Valid() && Reaches(at) && State().t == old(State()).t
      ensures var t := old(State()).t;
              State().pending ==
                if bound.traced || Lookup(writes, t, key).Some?
                then old(State()).pending + [Pending(at, WriteHeight(t.top, key), key, WrittenValue(t.top, key, pos, bound.value))]
                else old(State()).pending
    {
      hide StackOf, WrittenValue, WriteHeight, Lookup, Tracking.Valid, Tracking.State, Tracking.Frames;
      var known := Find(key);
      if bound.traced || known.Some? {
        Assign(key, pos, at, bound.value);
      }
    }

    /** Records the writes of an assignment: every value is read before any write. */
    method RecordBindings(n: Node)
      requires Valid() && n.Assign? && Reaches(n.end)
      modifies this`pending, this`heights
      ensures Valid() && State().t == old(State()).t
      ensures State().pending == old(State()).pending + PendingAll(writes, old(State()).t, n.pos, n.end, n.targets)
    {
      ghost var before := State();
      var values := ValuesOf(n.targets);
      var i := 0;
      PendingFromEnds(writes, before.t, n, before.pending);
      hide StackOf, WrittenValue, WriteHeight, Lookup, LandsOutside, PendingAll, PendingFrom, PendingOf, Tracking.Valid, Tracking.State,
           Tracking.Frames, Tracking.Reaches;
      while i < |n.targets|
        invariant 0 <= i <= |n.targets| && Valid() && State().t == before.t && Reaches(n.end)
        invariant before.pending + PendingAll(writes, before.t, n.pos, n.end, n.targets) == State().pending + PendingFrom(writes, before.t, n, i)
      {
        PendingFromStep(writes, before.t, n, i, State().pending);
        RecordOne(n.targets[i].key, n.pos, n.end, values[i]);
        i := i + 1;
      }
      PendingFromEnds(writes, before.t, n, State().pending);
    }
  }

  // ----- the walk

  function Routes(log: seq<Entry>): seq<Entry>
    decreases |log|
  {
    if log == [] then [] else (if log[0].Registration? then [log[0]] else []) + Routes(log[1..])
  }

  lemma NoRoutes()
    ensures Routes([]) == []
  {
  }

  lemma {:induction false} RoutesRegister(log: seq<Entry>)
    ensures forall e :: e in Routes(log) <==> e in log && e.Registration?
    decreases |log|
  {
    if log != [] {
      RoutesRegister(log[1..]);
    }
  }

  lemma {:induction false} RoutesSplit(a: seq<Entry>, b: seq<Entry>)
    ensures Routes(a + b) == Routes(a) + Routes(b)
    decreases |a|
  {
    if a == [] {
      assert a + b == b;
    } else {
      RoutesSplit(a[1..], b);
      RoutesFirst(a);
      RoutesFirst(a + b);
      assert (a + b)[1..] == a[1..] + b;
    }
  }

  lemma RoutesFirst(log: seq<Entry>)
    requires log != []
    ensures Routes(log) == (if log[0].Registration? then [log[0]] else []) + Routes(log[1..])
  {
  }

  lemma {:induction false} HazardsAreNoRoutes(ws: set<Site>, t: RegistrarTracker.Tracker, pos: Pos, targets: seq<Target>)
    ensures Routes(Hazards(ws, t, pos, targets)) == []
    decreases |targets|
  {
    if targets != [] {
      HazardsAreNoRoutes(ws, t, pos, targets[1..]);
      var own, rest := TargetHazards(ws, t, pos, targets[0]), Hazards(ws, t, pos, targets[1..]);
      RoutesSplit(own, rest);
      assert Routes([]) == [];
      if own != [] {
        assert own[1..] == [];
      }
    }
  }

  lemma OutermostEnds(fs: seq<Frame>, hi: Pos)
    requires |fs| > 0 && Encloses(StackOf(fs), hi)
    ensures forall i | 0 < i < |fs| && |fs| - 2 <= i :: hi <= fs[i].end
  {
    if |fs| > 2 {
      assert StackOf(fs).parent == StackOf(fs[..|fs| - 1]);
    }
  }

  class RouteWalker {
    const tracker: Tracking
    var routes: seq<Entry>

    constructor (body: Node, params: seq<Key>, seeds: map<Key, Prefix>)
      ensures fresh(tracker) && tracker.Valid() && fresh(tracker.repr) && tracker.writes == Sites(body)
      ensures tracker.State() == Lazy(Start(body, params, seeds), []) && routes == []
    {
      tracker := new Tracking(body, params, seeds);
      routes := [];
    }

    /** The frames a write recorded here may land in are open until the statement ends. */
    lemma Reaching(t: RegistrarTracker.Tracker, ps: seq<Pending>, hi: Pos)
      requires tracker.Valid() && SameLazy(tracker.State(), Lazy(t, ps)) && Encloses(t.top, hi)
      ensures forall at: Pos | at <= hi :: tracker.Reaches(at)
    {
      SameOutline(tracker.State().t.top, t.top, t.captured);
      EnclosesByOutline(tracker.State().t.top, t.top, hi);
      OutermostEnds(tracker.Frames(), hi);
      forall i | 0 < i < |tracker.open| && |tracker.open| - 2 <= i ensures hi <= tracker.open[i].end {
        assert tracker.Frames()[i] == tracker.open[i].Shown();
      }
    }

    /** Walks a node: t and ps are where the structural analysis stands there. */
    method WalkNode(n: Node, ghost lo: Pos, ghost hi: Pos, ghost t: RegistrarTracker.Tracker, ghost ps: seq<Pending>, ghost expressions: bool, ghost avail: set<Key>)
      requires tracker.Valid() && WellFormed(n, avail) && lo <= n.pos && n.end <= hi
      requires Stands(tracker.State(), lo, hi, t, ps, expressions) && (expressions ==> AreExpressions(Cons(n, Nil)))
      modifies this`routes, tracker, tracker.repr
      ensures tracker.Valid() && fresh(tracker.repr - old(tracker.repr))
      ensures tracker.State() == LazyWalk(tracker.writes, n, old(tracker.State())).l
      ensures routes == old(routes) + Routes(LazyWalk(tracker.writes, n, old(tracker.State())).log)
      decreases n, 3
    {
      hide Advance, Stands, Arrives, WellFormed, AreExpressions, LazyVisit, Routes, Tracking.Valid, Tracking.State, Tracking.Frames;
      Arrived(n, tracker.State(), lo, hi, t, ps, expressions, avail);
      tracker.AdvanceTo(n);
      Visit(n, hi, t, ps, expressions, avail);
    }

    /** Visits the node the tracker has moved to. */
    method Visit(n: Node, ghost hi: Pos, ghost t: RegistrarTracker.Tracker, ghost ps: seq<Pending>, ghost expressions: bool, ghost avail: set<Key>)
      requires tracker.Valid() && WellFormed(n, avail) && n.end <= hi && Arrives(n, tracker.State(), hi, t, ps, expressions)
      modifies this`routes, tracker, tracker.repr
      ensures tracker.Valid() && fresh(tracker.repr - old(tracker.repr))
      ensures tracker.State() == LazyVisit(tracker.writes, n, old(tracker.State())).l
      ensures routes == old(routes) + Routes(LazyVisit(tracker.writes, n, old(tracker.State())).log)
      decreases n, 2
    {
      hide SameLazy, WellFormed, Encloses, WaitsOutside, LazyCall, LazyAssign, LazyScope, Routes, Tracking.Valid, Tracking.State,
           Tracking.Frames;
      if n.Call? {
        VisitCall(n, hi, t, ps, expressions, avail);
      } else if n.Assign? {
        VisitAssign(n, hi, t, ps, avail);
      } else {
        VisitScope(n, hi, t, ps, expressions, avail);
      }
    }

    /** s: where the tracker stands at n, t and ps where the structural walk does. */
    ghost predicate Arrives(n: Node, s: Lazy, hi: Pos, t: RegistrarTracker.Tracker, ps: seq<Pending>, expressions: bool) {
      && Encloses(t.top, hi) && WaitsOutside(t.top, ps, hi, expressions)
      && if n.Scope? then SameLazy(s, Lazy(Enter(t, n), ps)) && (expressions ==> n.kind.LitK?)
         else SameLazy(s, Lazy(t, ps)) && (expressions ==> !n.Assign?)
    }

    /** Once the tracker has moved to n, it stands where the structural walk does there. */
    lemma Arrived(n: Node, l: Lazy, lo: Pos, hi: Pos, t: RegistrarTracker.Tracker, ps: seq<Pending>, expressions: bool, avail: set<Key>)
      requires WellFormed(n, avail) && lo <= n.pos && n.end <= hi
      requires Stands(l, lo, hi, t, ps, expressions) && (expressions ==> AreExpressions(Cons(n, Nil)))
      ensures Arrives(n, Advance(l, n), hi, t, ps, expressions) && (n.Scope? ==> !n.kind.RootK?)
    {
      Arrive(l, lo, hi, t, ps, expressions, n.pos);
      if n.Scope? {
        ScopeEntered(n, Advance(l, n), l, t, ps);
      }
    }

    method VisitCall(n: Node, ghost hi: Pos, ghost t: RegistrarTracker.Tracker, ghost ps: seq<Pending>, ghost expressions: bool, ghost avail: set<Key>)
      requires tracker.Valid() && n.Call? && WellFormed(n, avail) && n.end <= hi && SameLazy(tracker.State(), Lazy(t, ps))
      requires Encloses(t.top, hi) && WaitsOutside(t.top, ps, hi, expressions)
      modifies this`routes, tracker, tracker.repr
      ensures tracker.Valid() && fresh(tracker.repr - old(tracker.repr))
      ensures tracker.State() == LazyCall(tracker.writes, n, old(tracker.State())).l
      ensures routes == old(routes) + Routes(LazyCall(tracker.writes, n, old(tracker.State())).log)
      decreases n, 1
    {
      hide Walk, WellFormedIn, Sites, Lookup, SameStack, Stands, LazyWalkIn, Encloses, Beneath, Tracking.Valid, Tracking.State,
           Tracking.Frames;
      ghost var ws, s := tracker.writes, tracker.State();
      ghost var own := if n.registrar.Some? then [Registration(n.pos, n.registrar.value, Lookup(ws, s.t, n.registrar.value))] else [];
      if n.registrar.Some? {
        var binding := tracker.Find(n.registrar.value);
        routes := routes + [Registration(n.pos, n.registrar.value, binding)];
      }
      assert Routes(own) == own;
      RoutesSplit(own, LazyWalkIn(ws, n.inner, s).log);
      CallStands(n, s, hi, t, ps, expressions);
      WalkNodes(n.inner, if n.registrar.Some? then n.pos + 1 else n.pos, n.end, t, ps, true, avail);
    }

    method VisitAssign(n: Node, ghost hi: Pos, ghost t: RegistrarTracker.Tracker, ghost ps: seq<Pending>, ghost avail: set<Key>)
      requires tracker.Valid() && n.Assign? && WellFormed(n, avail) && n.end <= hi && SameLazy(tracker.State(), Lazy(t, ps))
      requires Encloses(t.top, hi) && WaitsOutside(t.top, ps, hi, false)
      modifies this`routes, tracker, tracker.repr
      ensures tracker.Valid() && fresh(tracker.repr - old(tracker.repr))
      ensures tracker.State() == LazyAssign(tracker.writes, n, old(tracker.State())).l
      ensures routes == old(routes) + Routes(LazyAssign(tracker.writes, n, old(tracker.State())).log)
      decreases n, 1
    {
      hide Walk, WellFormedIn, Sites, Lookup, SameStack, Stands, LazyWalkIn, Encloses, Beneath, Tracking.Valid, Tracking.Frames,
           PendingAll, Routes;
      ghost var ws, s := tracker.writes, tracker.State();
      Reaching(t, ps, hi);
      tracker.RecordBindings(n);
      assert tracker.State() == s.(pending := s.pending + PendingAll(ws, s.t, n.pos, n.end, n.targets));
      hide Tracking.State;
      HazardsAreNoRoutes(ws, s.t, n.pos, n.targets);
      RoutesSplit(Hazards(ws, s.t, n.pos, n.targets), LazyWalkIn(ws, n.inner, tracker.State()).log);
      AssignStands(ws, n, s, hi, t, ps);
      WalkNodes(n.inner, n.pos, n.end, t, ps + PendingAll(ws, t, n.pos, n.end, n.targets), true, avail);
    }

    lemma ScopeEntered(n: Node, s: Lazy, l: Lazy, t: RegistrarTracker.Tracker, ps: seq<Pending>)
      requires n.Scope? && s == Advance(l, n) && SameLazy(Settle(l, n.pos), Lazy(t, ps))
      ensures SameLazy(s, Lazy(Enter(t, n), ps))
    {
      SameEnter(Settle(l, n.pos).t, t, n);
    }

    method VisitScope(n: Node, ghost hi: Pos, ghost t: RegistrarTracker.Tracker, ghost ps: seq<Pending>, ghost expressions: bool, ghost avail: set<Key>)
      requires tracker.Valid() && n.Scope? && WellFormed(n, avail) && n.end <= hi && SameLazy(tracker.State(), Lazy(Enter(t, n), ps))
      requires Encloses(t.top, hi) && WaitsOutside(t.top, ps, hi, expressions) && (expressions ==> n.kind.LitK?)
      modifies this`routes, tracker, tracker.repr
      ensures tracker.Valid() && fresh(tracker.repr - old(tracker.repr))
      ensures tracker.State() == LazyScope(tracker.writes, n, old(tracker.State())).l
      ensures routes == old(routes) + Routes(LazyScope(tracker.writes, n, old(tracker.State())).log)
      decreases n, 1
    {
      hide Walk, WellFormedIn, Sites, SameStack, Stands, LazyWalkIn, Encloses, Beneath, Enter, Tracking.Valid, Tracking.State,
           Tracking.Frames, Routes;
      ghost var ws, s := tracker.writes, tracker.State();
      EnterStands(n, s, hi, t, ps, expressions);
      WalkNodes(n.header, n.pos, n.end, Enter(t, n), ps, false, avail);
      ghost var w := tracker.State();
      WalkInRefines(ws, n.header, s, n.pos, n.end, Enter(t, n), ps, false, avail);
      RoutesSplit(LazyWalkIn(ws, n.header, s).log, LazyWalkIn(ws, n.body, w).log);
      WalkNodes(n.body, After(n.header, n.pos), n.end, HeaderWalked(ws, n, t), ps, false, InnerScope(n, avail));
    }

    method WalkNodes(ns: Nodes, ghost lo: Pos, ghost hi: Pos, ghost t: RegistrarTracker.Tracker, ghost ps: seq<Pending>, ghost expressions: bool, ghost avail: set<Key>)
      requires tracker.Valid() && WellFormedIn(ns, lo, hi, avail)
      requires Stands(tracker.State(), lo, hi, t, ps, expressions) && (expressions ==> AreExpressions(ns))
      modifies this`routes, tracker, tracker.repr
      ensures tracker.Valid() && fresh(tracker.repr - old(tracker.repr))
      ensures tracker.State() == LazyWalkIn(tracker.writes, ns, old(tracker.State())).l
      ensures routes == old(routes) + Routes(LazyWalkIn(tracker.writes, ns, old(tracker.State())).log)
      decreases ns, 0
    {
      hide Walk, WellFormed, Sites, Stands, LazyWalk, Tracking.Valid, Tracking.State, Tracking.Frames, Routes;
      if ns.Nil? {
        NoRoutes();
      } else {
        ghost var ws, l := tracker.writes, tracker.State();
        WalkNode(ns.head, lo, hi, t, ps, expressions, avail);
        WalkRefines(ws, ns.head, l, lo, hi, t, ps, expressions, avail);
        RoutesSplit(LazyWalk(ws, ns.head, l).log, LazyWalkIn(ws, ns.tail, tracker.State()).log);
        WalkNodes(ns.tail, ns.head.end, hi, Walk(ws, ns.head, t).t, ps, expressions, avail + Declared(ns.head));
      }
    }
  }

  /** Every registration seen has a route; one that resolves the prefix of a variable outside z is right. */
  predicate Foretold(routes: seq<Entry>, seen: seq<Observation>, z: set<Key>) {
    && (forall o <- seen :: exists e <- routes :: e.pos == o.pos && e.key == o.key)
    && (forall o <- seen, e <- routes :: e.Registration? && e.pos == o.pos ==>
          e.key == o.key && (o.key !in z && IsResolved(e.prefix) ==> o.value == Registrar(e.prefix.value.path)))
  }

  lemma RoutesForetell(body: Node, params: seq<Key>, seeds: map<Key, Prefix>, args: seq<Value>, plan: Plan, z: set<Key>)
    requires IsFunction(body, params, seeds) && HandedBut(params, seeds, args, z)
    requires Independent(body, z) && HazardsWithin(Analyzed(body, params, seeds), z)
    ensures Foretold(Routes(Analyzed(body, params, seeds)), Observed(body, params, args, plan), z)
  {
    hide IsFunction, HandedBut, Independent, Observed, Analyzed, HazardsWithin, IsResolved;
    var log := Analyzed(body, params, seeds);
    RoutesRegister(log);
    TrustedIsSound(body, params, seeds, args, plan, z);
    forall o | o in Observed(body, params, args, plan) ensures exists e <- Routes(log) :: e.pos == o.pos && e.key == o.key {
      var e :| e in log && e.Registration? && e.pos == o.pos && e.key == o.key;
      assert e in Routes(log);
    }
  }

  /** The walk of a function body reports the registrations of the structural analysis. */
  method WalkBody(body: Node, params: seq<Key>, seeds: map<Key, Prefix>) returns (routes: seq<Entry>)
    requires IsFunction(body, params, seeds)
    ensures routes == Routes(Analyzed(body, params, seeds))
  {
    hide Sites, LazyWalk, WellFormed, Follows, SameStack, Walk, Tracking.Valid, Tracking.State, Tracking.Frames;
    var walker := new RouteWalker(body, params, seeds);
    ghost var ws, t := Sites(body), Start(body, params, seeds);
    SameReflexive(t.top, t.captured);
    SameFollows(Lazy(t, []), body.pos, Lazy(t, []));
    walker.WalkNode(body, body.pos, body.end, t, [], false, KeySet(params));
    WalkRefines(ws, body, Lazy(t, []), body.pos, body.end, t, [], false, KeySet(params));
    routes := walker.routes;
  }

  /**
   Every registration that is certain is resolved, and in every call of the
   function each registration is handed exactly the registrar its route says, but for the variables written where the walk is
   blind, or handed something else, and those built from them.
   */
  method AnalyzeBody(body: Node, params: seq<Key>, seeds: map<Key, Prefix>) returns (routes: seq<Entry>)
    requires IsFunction(body, params, seeds)
    ensures routes == Routes(Analyzed(body, params, seeds)) && forall e <- routes :: e.Registration?
    ensures forall e <- routes :: e.pos in C.CertainSpots(body, seeds) ==> IsResolved(e.prefix)
    ensures forall z, args, plan | Independent(body, z) && HazardsWithin(Analyzed(body, params, seeds), z) && HandedBut(params, seeds, args, z) ::
              Foretold(routes, Observed(body, params, args, plan), z)
  {
    routes := WalkBody(body, params, seeds);
    RoutesRegister(Analyzed(body, params, seeds));
    C.CertainIsResolved(body, params, seeds);
    forall z, args, plan | Independent(body, z) && HazardsWithin(Analyzed(body, params, seeds), z) && HandedBut(params, seeds, args, z)
      ensures Foretold(routes, Observed(body, params, args, plan), z)
    {
      RoutesForetell(body, params, seeds, args, plan, z);
    }
  }
}
