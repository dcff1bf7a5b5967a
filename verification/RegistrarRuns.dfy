/** The soundness proof, by recursion on the plan of a run. */
module RegistrarRuns {
  import opened Wrappers
  import opened RegistrarSyntax
  import opened RegistrarTracker
  import opened RegistrarStructure
  import opened RegistrarInvariants
  import opened RegistrarNotes
  import opened RegistrarSemantics
  import opened RegistrarWorld
  import opened RegistrarSteps
  import opened RegistrarClaims
  import opened RegistrarAssign
  import opened RegistrarSoundness
  import opened RegistrarReady
  import opened RegistrarScopes

  /** A call of a function literal created earlier: its own body, from its own surroundings. */
  lemma {:induction false} InvokeSound(ws: set<Site>, log: seq<Entry>, target: nat, args: seq<Value>, body: Plan, a: World) returns (b: World)
    requires Sound(ws, log, a) && AllRegistrations(log) && target < |a.st.pool|
    ensures var c := a.st.pool[target];
            c.lit.Scope? && b.st == RunIn(c.lit.body, body, Allocate(c.lit.declares, args, c.env, a.st).0, Allocate(c.lit.declares, args, c.env, a.st).1).st
    ensures Sound(ws, log, b) && Undisturbed(ws, a, b)
    decreases body, 2
  {
    hide WellFormedIn, Sane, Walk, SitesIn, Writes, WritesIn, LitWrites, LitWritesIn, Lookup, Outline, Masked, Claims, Doomed, Live,
         PlacedIn, Grew, AllRegistrations, Enter, Leave, Frozen, PoolWrites, EnvSane, EnvGrew, FreshCells, Quiet, RunnableIn;
    var c, snap := a.st.pool[target], a.snaps[target];
    assert ClosureLive(ws, log, c, snap, a.st);
    var n, e := c.lit, BodyStart(c, snap);
    ClosurePlaced(ws, log, c, snap);
    ScopeSteps(ws, n, snap, c.env.Keys);
    assert HeaderWalked(ws, n, snap) == e;
    var (out, st) := Allocate(n.declares, args, c.env, a.st);
    forall k | k in n.declares ensures !Claims(ws, e, k) {
      EnterKeepsSane(ws, snap, n, c.env.Keys);
      UnmentionedIsUnclaimed(ws, e, c.env.Keys, k);
    }
    LiveAllocate(ws, log, e, n.declares, args, c.env, a, {});
    var x := World(st, a.snaps);
    MoreCellsExtend(a, st);
    PoolEnvSane(ws, log, a);
    InvokeReady(ws, log, target, out, a, x);
    b := RunInSound(ws, log, n.body, body, out, x, e, After(n.header, n.pos), n.end, {});
    InvokeEffect(ws, log, target, out, After(n.body, n.pos), a, x, b);
  }

  /** A run with no node left only calls function literals. */
  lemma {:induction false} IdleSound(ws: set<Site>, log: seq<Entry>, plan: Plan, env: Env, a: World) returns (b: World)
    requires Sound(ws, log, a) && AllRegistrations(log)
    ensures b.st == RunIn(Nil, plan, env, a.st).st && Sound(ws, log, b) && RunIn(Nil, plan, env, a.st).env == env
    ensures Undisturbed(ws, a, b)
    decreases plan, 0
  {
    b := a;
    UndisturbedNothing(ws, a);
    if plan.Invoke? {
      if plan.target < |a.st.pool| && a.st.pool[plan.target].lit.Scope? {
        b := InvokeSound(ws, log, plan.target, plan.args, plan.body, a);
      }
      var c := b;
      b := IdleSound(ws, log, plan.next, env, c);
      UndisturbedThen(ws, a, c, b);
    }
  }

  /** A list of nodes. */
  lemma {:induction false} RunInSound(ws: set<Site>, log: seq<Entry>, ns: Nodes, plan: Plan, env: Env, a: World, t: Tracker, lo: Pos, hi: Pos, rest: set<Key>)
    returns (b: World)
    requires AllRegistrations(log) && RunnableIn(ws, log, ns, t, lo, hi, env.Keys)
    requires Ready(ws, log, t, env, WritesIn(ns), rest, a)
    requires InSequence(t.top.frame.kind, ns) || ns.Nil? || ns.tail.Nil?
    ensures Ran(ws, log, t, env, WritesIn(ns), LitWritesIn(ns), After(ns, lo), DeclaredIn(ns), RunIn(ns, plan, env, a.st), a, b)
    ensures InSequence(t.top.frame.kind, ns) && t.top.frame.fallthroughWrites == {} ==> Settled(ws, WalkIn(ws, ns, t).t, RunIn(ns, plan, env, a.st), rest)
    decreases plan, 1
  {
    hide Sound, Live, Unfrozen, Effect, PlacedIn, WellFormedIn, Placed, FreshCells, EnvGrew, Sites, SitesIn, Writes, LitWrites;
    if ns.Nil? {
      b := IdleSound(ws, log, plan, env, a);
      ReadyAfterCalls(ws, log, t, env, {}, rest, a, b);
      IdleSettled(ws, log, t, lo, hi, env, rest, b);
      IdleRan(ws, log, t, env, lo, RunIn(ns, plan, env, a.st).normal, a, b);
      return;
    }
    match plan
    case Done =>
      b := a;
      NoRun(ws, log, t, env, WritesIn(ns), LitWritesIn(ns), After(ns, lo), DeclaredIn(ns), a);
    case Invoke(target, args, body, next) =>
      var c := a;
      UndisturbedSound(ws, log, a);
      if target < |a.st.pool| && a.st.pool[target].lit.Scope? {
        c := InvokeSound(ws, log, target, args, body, a);
      }
      ReadyAfterCalls(ws, log, t, env, WritesIn(ns), rest, a, c);
      b := RunInSound(ws, log, ns, next, env, c, t, lo, hi, rest);
      CallsThenRan(ws, log, t, env, WritesIn(ns), LitWritesIn(ns), After(ns, lo), DeclaredIn(ns), RunIn(ns, next, env, c.st), a, c, b);
    case Step(choice, next) =>
      HeadRunnable(ws, log, ns, t, lo, hi, env.Keys);
      var u := Walk(ws, ns.head, t).t;
      var o := Run(ns.head, choice, env, a.st);
      HeadReady(ws, log, ns, t, env, rest, a);
      var c := RunSound(ws, log, ns.head, choice, env, a, t, WritesIn(ns.tail) + rest);
      if !o.normal {
        b := c;
        UndisturbedSound(ws, log, c);
        RanAndStopped(ws, log, ns, t, lo, hi, env, o, o, a, c, b);
      } else if !InSequence(t.top.frame.kind, ns) {
        b := IdleSound(ws, log, next, o.env, c);
        RanAndStopped(ws, log, ns, t, lo, hi, env, o, RunIn(ns.tail, next, o.env, c.st), a, c, b);
      } else {
        ReadyAfterHead(ws, log, ns, t, lo, hi, env, rest, o, a, c);
        b := RunInSound(ws, log, ns.tail, next, o.env, c, u, ns.head.end, hi, rest);
        RanThen(ws, log, ns, t, lo, hi, env, o, RunIn(ns.tail, next, o.env, c.st), a, c, b);
      }
  }

  lemma {:induction false} CallSound(ws: set<Site>, log: seq<Entry>, n: Node, choice: Choice, env: Env, a: World, t: Tracker, rest: set<Key>)
    returns (b: World)
    requires n.Call? && AllRegistrations(log) && Runnable(ws, log, n, t, env.Keys)
    requires Ready(ws, log, t, env, Writes(n), rest, a)
    ensures Ran(ws, log, t, env, Writes(n), LitWrites(n), n.end, Declared(n), Run(n, choice, env, a.st), a, b)
    ensures Settled(ws, Walk(ws, n, t).t, Run(n, choice, env, a.st), rest)
    decreases choice, 0
  {
    hide WellFormed, WellFormedIn, Sane, Walk, WalkIn, Sites, SitesIn, Writes, WritesIn, LitWrites, LitWritesIn, Lookup, Sound, Grew,
         AllRegistrations, Enter, Leave, Frozen, EnvSane, Runnable, RunnableIn, DeclaredIn;
    InnerRunnable(ws, log, n, t, env.Keys);
    b := RunInSound(ws, log, n.inner, choice.head, env, a, t, InnerStart(n), n.end, rest);
    var o := RunIn(n.inner, choice.head, env, a.st);
    var c := b;
    if o.normal {
      assert o.env == env;
      if n.registrar.Some? {
        var at := ReadAt(n.inner, a.st, c.st);
        RegistrationExplained(ws, log, n, t, env, at, if AreLiterals(n.inner) then Writes(n) + rest else rest);
        var seen := Observation(n.pos, n.registrar.value, Read(env, at, n.registrar.value));
        SeenSound(ws, log, c, seen);
        b := World(c.st.(seen := c.st.seen + [seen]), c.snaps);
        CallRan(ws, log, n, t, env, rest, a, c, b);
      } else {
        UndisturbedSound(ws, log, c);
        CallRan(ws, log, n, t, env, rest, a, c, b);
      }
    } else {
      InnerStopped(ws, log, n, t, env, env, o, a, c);
    }
  }

  lemma {:induction false} AssignSound(ws: set<Site>, log: seq<Entry>, n: Node, choice: Choice, env: Env, a: World, t: Tracker, rest: set<Key>)
    returns (b: World)
    requires n.Assign? && AllRegistrations(log) && Runnable(ws, log, n, t, env.Keys)
    requires Ready(ws, log, t, env, Writes(n), rest, a)
    ensures Ran(ws, log, t, env, Writes(n), LitWrites(n), n.end, Declared(n), Run(n, choice, env, a.st), a, b)
    ensures Settled(ws, Walk(ws, n, t).t, Run(n, choice, env, a.st), rest)
    decreases choice, 0
  {
    hide Sound, Live, Unfrozen, Effect, Placed, WellFormed, Sites, Writes, LitWrites, Walk, WalkIn, Masked, FreshCells, RunnableIn,
         Runnable, Allocate;
    AssignReady(ws, log, n, t, env, rest, a);
    var c := RunInSound(ws, log, n.inner, choice.head, env, a, t, n.pos, n.end, TargetKeys(n.targets) + rest);
    var o := RunIn(n.inner, choice.head, env, a.st);
    if o.normal {
      assert o.env == env;
      b := AssignStores(ws, log, n, choice, env, a, c, t, rest);
      LiveIsSane(ws, Walk(ws, n, t).t, Run(n, choice, env, a.st).env, b.st, rest);
    } else {
      b := c;
      InnerStopped(ws, log, n, t, env, env, o, a, c);
    }
  }

  lemma {:induction false} ScopeSound(ws: set<Site>, log: seq<Entry>, n: Node, choice: Choice, env: Env, a: World, t: Tracker, rest: set<Key>)
    returns (b: World)
    requires n.Scope? && !n.kind.LitK? && AllRegistrations(log) && Runnable(ws, log, n, t, env.Keys)
    requires Ready(ws, log, t, env, Writes(n), rest, a)
    ensures Ran(ws, log, t, env, Writes(n), LitWrites(n), n.end, Declared(n), Run(n, choice, env, a.st), a, b)
    ensures !IsBranching(t.top.frame.kind) ==> Settled(ws, Walk(ws, n, t).t, Run(n, choice, env, a.st), rest)
    decreases choice, 0
  {
    hide WellFormed, WellFormedIn, Sane, Walk, WalkIn, Sites, SitesIn, Writes, WritesIn, LitWrites, LitWritesIn, Lookup, Outline, Masked,
         Claims, Doomed, Live, Sound, EffectAt, Effect, Placed, PlacedIn, Grew, AllRegistrations, Enter, Leave, Frozen, PoolWrites,
         EnvSane, EnvGrew, FreshCells, Quiet;
    hide Sound, Live, Unfrozen, Effect, Placed, PlacedIn, WellFormed, WellFormedIn, FreshCells, Sites, SitesIn, Writes, LitWrites,
         WritesIn, LitWritesIn, RunnableIn, Runnable, LoopPlaced, Walk, WalkIn, Masked, Outline;
    ScopeShape(ws, log, n, t, env, rest, a);
    HeaderReady(ws, log, n, t, env, rest, a);
    var h := RunInSound(ws, log, n.header, choice.head, env, a, Enter(t, n), n.pos, n.end, WritesIn(n.body) + rest);
    var o := RunIn(n.header, choice.head, env, a.st);
    if !o.normal {
      b := h;
      HeaderStopped(ws, log, n, t, env, o, a, h);
      return;
    }
    BodyRunnable(ws, log, n, t, env.Keys);
    BodyReady(ws, log, n, t, env, rest, o, a, h);
    var u := HeaderWalked(ws, n, t);
    ReadyAlone(ws, log, u, o.env, WritesIn(n.body), rest, h);
    var normal := Run(n, choice, env, a.st).normal;
    if IsLoop(n.kind) {
      LoopStarts(ws, log, n, t, env.Keys);
      b := LoopSound(ws, log, n, choice.picks, env.Keys, o.env, h, u);
    } else if IsBranching(n.kind) {
      if choice.picks.End? {
        b := h;
        NothingDone(ws, log, u, o.env, WritesIn(n.body), LitWritesIn(n.body), n.end, h);
      } else {
        BranchStarts(ws, log, n, u, o.env, h);
        b := BranchSound(ws, log, n.body, choice.picks.which, choice.picks, o.env, h, u, After(n.header, n.pos), n.end);
      }
    } else {
      var q := RunIn(n.body, choice.main, o.env, h.st);
      b := RunInSound(ws, log, n.body, choice.main, o.env, h, u, After(n.header, n.pos), n.end, rest);
      BodyEnds(ws, log, n, u, InnerScope(n, env.Keys), o.env, q, h, b);
      if IsBareBlock(NewFrame(n, map[]), t.top.frame) {
        CarrySettled(ws, log, n, t, env, rest, o, q, a, h, b);
      }
    }
    ScopeRan(ws, log, n, t, env, o, normal, a, h, b);
    if !IsBranching(t.top.frame.kind) && !IsBareBlock(NewFrame(n, map[]), t.top.frame) {
      MergeSettled(ws, log, n, t, env, rest, o, normal, a, h, b);
    }
  }

  /** The iterations of a loop. */
  lemma {:induction false} LoopSound(ws: set<Site>, log: seq<Entry>, n: Node, picks: Picks, avail: set<Key>, env: Env, x: World, u: Tracker) returns (b: World)
    requires AllRegistrations(log) && LoopPlaced(ws, log, n, u, avail) && env.Keys == LoopScope(n, avail)
    requires Ready(ws, log, u, env, WritesIn(n.body), {}, x)
    ensures b.st == RunLoop(n, picks, env, x.st) && Sound(ws, log, b)
    ensures Effect(ws, u, env, WritesIn(n.body), LitWritesIn(n.body), n.end, x, b)
    decreases picks
  {
    hide Sound, Live, Unfrozen, Effect, PlacedIn, WellFormed, WellFormedIn, Sites, SitesIn, Writes, LitWrites, WritesIn, LitWritesIn,
         RunnableIn, Walk, WalkIn, Masked, Blank;
    if picks.End? {
      b := x;
      NothingDone(ws, log, u, env, WritesIn(n.body), LitWritesIn(n.body), n.end, x);
      return;
    }
    var (out, st) := Renew(n, picks.renew, picks.values, env, x.st);
    var y, next := World(st, x.snaps), if n.kind.RangeK? then env else out;
    RenewReady(ws, log, n, u, avail, env, picks.renew, picks.values, x);
    LoopParts(ws, log, n, u, avail);
    var c := PartSound(ws, log, n.body, picks.which, picks.plan, out, y, u, After(n.header, n.pos), n.end);
    LoopAgain(ws, log, n, u, avail, env, out, next, x, y, c);
    b := LoopSound(ws, log, n, picks.more, avail, next, c, u);
    LitWritesInAreWrites(n.body);
    LoopThen(ws, log, u, env, out, next, WritesIn(n.body), LitWritesIn(n.body), n.end, x, y, c, b);
  }

  /** One part of a loop: its condition, its post statement or its block. */
  lemma {:induction false} PartSound(ws: set<Site>, log: seq<Entry>, parts: Nodes, which: nat, plan: Plan, env: Env, x: World, u: Tracker, lo: Pos, hi: Pos)
    returns (b: World)
    requires AllRegistrations(log) && RunnableIn(ws, log, parts, u, lo, hi, env.Keys) && IsLoop(u.top.frame.kind) && DeclaredIn(parts) == {}
    requires Ready(ws, log, u, env, WritesIn(parts), {}, x) && Masked(u) == u
    requires parts.Cons? && parts.tail.Cons? ==> forall k <- env :: k in WritesIn(parts) ==> ReassignedWhileRunning(ws, u.top.frame, k)
    ensures b.st == RunPart(parts, which, plan, env, x.st) && Sound(ws, log, b)
    ensures Effect(ws, u, env, WritesIn(parts), LitWritesIn(parts), hi, x, b)
    decreases plan, 3, parts
  {
    hide Sound, Live, Unfrozen, Effect, PlacedIn, WellFormed, WellFormedIn, Sites, SitesIn, Writes, LitWrites, Walk, WalkIn, Masked,
         Outline;
    if parts.Nil? || (which > 0 && parts.tail.Nil?) {
      b := x;
      NothingDone(ws, log, u, env, WritesIn(parts), LitWritesIn(parts), hi, x);
    } else if which == 0 {
      var one := Cons(parts.head, Nil);
      SingleRunnable(ws, log, parts, u, lo, hi, env.Keys);
      ReadyNarrows(ws, log, u, env, WritesIn(parts), WritesIn(one), x);
      b := RunInSound(ws, log, one, plan, env, x, u, lo, hi, {});
      EffectLater(ws, u, env, WritesIn(parts), LitWritesIn(parts), hi, WritesIn(one), LitWritesIn(one), After(one, lo), x, b);
    } else {
      var v := Walk(ws, parts.head, u).t;
      HeadRunnable(ws, log, parts, u, lo, hi, env.Keys);
      NothingDeclared(parts, env.Keys);
      PartAfter(ws, log, parts, u, lo, hi, env, x);
      b := PartSound(ws, log, parts.tail, which - 1, plan, env, x, v, parts.head.end, hi);
      PartEffect(ws, parts, u, v, env, hi, x, b);
    }
  }

  /** The alternative taken, and those it falls through to. */
  lemma {:induction false} BranchSound(ws: set<Site>, log: seq<Entry>, alts: Nodes, skip: nat, picks: Picks, env: Env, x: World, u: Tracker, lo: Pos, hi: Pos)
    returns (b: World)
    requires AllRegistrations(log) && RunnableIn(ws, log, alts, u, lo, hi, env.Keys) && IsBranching(u.top.frame.kind)
    requires AreBranches(alts) && DeclaredIn(alts) == {}
    requires Ready(ws, log, u, env, WritesIn(alts), {}, x)
    requires skip > 0 ==> Live(ws, u, env, x.st, WritesIn(alts))
    ensures b.st == RunBranch(alts, skip, picks, env, x.st).st && Sound(ws, log, b)
    ensures Effect(ws, Seen(u, skip), env, WritesIn(alts), LitWritesIn(alts), hi, x, b)
    decreases picks, alts
  {
    hide Sound, Live, Effect, PlacedIn, WellFormed, WellFormedIn, Sites, SitesIn, Writes, LitWrites, Walk, WalkIn, Masked, Outline,
         Runnable, FreshCells;
    if picks.End? || alts.Nil? || (skip > 0 && alts.tail.Nil?) {
      b := x;
      NothingDone(ws, log, Seen(u, skip), env, WritesIn(alts), LitWritesIn(alts), hi, x);
      return;
    }
    var v := Walk(ws, alts.head, u).t;
    HeadRunnable(ws, log, alts, u, lo, hi, env.Keys);
    NothingDeclared(alts, env.Keys);
    if skip > 0 {
      BranchSkipped(ws, log, alts, skip, u, lo, hi, env, x);
      b := BranchSound(ws, log, alts.tail, skip - 1, picks, env, x, v, alts.head.end, hi);
      PartEffect(ws, alts, u, Seen(v, skip - 1), env, hi, x, b);
      return;
    }
    var one := Cons(alts.head, Nil);
    var o := RunIn(one, picks.plan, env, x.st);
    SingleRunnable(ws, log, alts, u, lo, hi, env.Keys);
    ReadyNarrows(ws, log, u, env, WritesIn(alts), WritesIn(one), x);
    var c := RunInSound(ws, log, one, picks.plan, env, x, u, lo, hi, {});
    if o.normal && FallsThrough(NewFrame(alts.head, map[])) && alts.tail.Cons? {
      BranchFell(ws, log, alts, u, lo, hi, env, x, c);
      b := BranchSound(ws, log, alts.tail, 0, picks.more, env, c, v, alts.head.end, hi);
      BranchThen(ws, alts, Masked(u), Masked(v), hi, env, x, c, b);
    } else {
      b := c;
      EffectLater(ws, Masked(u), env, WritesIn(alts), LitWritesIn(alts), hi, WritesIn(one), LitWritesIn(one), After(one, lo), x, b);
    }
  }

  /** One node. */
  lemma {:induction false} RunSound(ws: set<Site>, log: seq<Entry>, n: Node, choice: Choice, env: Env, a: World, t: Tracker, rest: set<Key>)
    returns (b: World)
    requires AllRegistrations(log) && Runnable(ws, log, n, t, env.Keys)
    requires Ready(ws, log, t, env, Writes(n), rest, a)
    ensures Ran(ws, log, t, env, Writes(n), LitWrites(n), n.end, Declared(n), Run(n, choice, env, a.st), a, b)
    ensures (!IsBranching(t.top.frame.kind) || !n.Scope? || n.kind.LitK?) ==> Settled(ws, Walk(ws, n, t).t, Run(n, choice, env, a.st), rest)
    decreases choice, 1
  {
    if n.Call? {
      b := CallSound(ws, log, n, choice, env, a, t, rest);
    } else if n.Assign? {
      b := AssignSound(ws, log, n, choice, env, a, t, rest);
    } else if n.kind.LitK? {
      LitReady(ws, log, n, t, env, rest, a);
      hide Sound, Live, Effect, Placed, WellFormed, Sites, Writes, LitWrites, Walk, Masked;
      b := LitCreated(ws, log, n, env, a, t, rest);
      LitRan(ws, log, n, env, a, b, t);
    } else {
      b := ScopeSound(ws, log, n, choice, env, a, t, rest);
    }
  }
}
