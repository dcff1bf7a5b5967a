/**
 The analysis is sound: whatever branches are taken, however often loops run
 and whenever the function literals created are called, a registration is
 handed exactly the registrar the analysis says, where it says one.
 */
module RegistrarSoundness {
  import opened Wrappers
  import opened RegistrarSyntax
  import opened RegistrarTracker
  import opened RegistrarStructure
  import opened RegistrarInvariants
  import opened RegistrarNotes
  import opened RegistrarSemantics
  import opened RegistrarWorld
  import opened RegistrarSteps
  import opened RegistrarClaims
  import opened RegistrarAssign

  /** n can be run from env where the walk stands in t. */
  predicate Runnable(ws: set<Site>, log: seq<Entry>, n: Node, t: Tracker, avail: set<Key>) {
    && Placed(ws, n, t, avail)
    && AllRegistrations(Walk(ws, n, t).log)
    && (forall e <- Walk(ws, n, t).log :: e in log)
    && (IsHeader(t.top.frame.kind) ==> (n.Scope? && !n.kind.LitK?) || HeaderClean(t))
  }

  predicate RunnableIn(ws: set<Site>, log: seq<Entry>, ns: Nodes, t: Tracker, lo: Pos, hi: Pos, avail: set<Key>) {
    && PlacedIn(ws, ns, t, lo, hi, avail)
    && AllRegistrations(WalkIn(ws, ns, t).log)
    && (forall e <- WalkIn(ws, ns, t).log :: e in log)
    && (IsHeader(t.top.frame.kind) ==> AreScopes(ns) || (AreHeaderNodes(ns) && HeaderClean(t)))
  }

  /** Nodes that run one after the other, rather than as alternatives. */
  predicate InSequence(kind: Kind, ns: Nodes) {
    !IsBranching(kind) || AreHeaderNodes(ns)
  }

  /** What one run of code leaves behind. */
  ghost predicate Ran(ws: set<Site>, log: seq<Entry>, t: Tracker, env: Env, w: set<Key>, lw: set<Key>, end: Pos,
                      decls: set<Key>, o: Outcome, a: World, b: World)
  {
    && o.st == b.st && Sound(ws, log, b)
    && Effect(ws, Masked(t), env, w, lw, end, a, b)
    && (o.normal ==> EnvSane(o.env, b.st) && EnvGrew(env, o.env, decls, |a.st.cells|) && FreshCells(ws, Masked(t), o.env, decls, end, b))
  }

  /** The claims made once code has run to its end hold. */
  predicate Settled(ws: set<Site>, r: Tracker, o: Outcome, rest: set<Key>) {
    o.normal ==> Live(ws, r, o.env, o.st, rest)
  }

  lemma LiveIsSane(ws: set<Site>, t: Tracker, env: Env, st: State, w: set<Key>)
    requires Live(ws, t, env, st, w)
    ensures EnvSane(env, st)
  {
  }

  // ----- assignments

  /** The stores of an assignment, once its expressions have run normally. */
  lemma AssignStores(ws: set<Site>, log: seq<Entry>, n: Node, choice: Choice, env: Env, a: World, b: World, t: Tracker, rest: set<Key>)
    returns (c: World)
    requires n.Assign? && Runnable(ws, log, n, t, env.Keys) && EnvSane(env, a.st)
    requires Sound(ws, log, b) && Unfrozen(ws, a, env, Writes(n))
    requires Effect(ws, t, env, WritesIn(n.inner), LitWritesIn(n.inner), After(n.inner, n.pos), a, b)
    requires Live(ws, t, env, a.st, Writes(n) + rest)
    requires Live(ws, WalkIn(ws, n.inner, t).t, env, b.st, TargetKeys(n.targets) + rest)
    ensures var values := EvaluateAll(n.targets, env, ReadAt(n.inner, a.st, b.st), choice.values);
            var (out, st) := Allocate(n.decls, [], env, b.st);
            && c.st == StoreAll(n.targets, out, st, values)
            && Sound(ws, log, c) && Live(ws, Walk(ws, n, t).t, out, c.st, rest)
            && EnvGrew(env, out, Declared(n), |a.st.cells|) && FreshCells(ws, t, out, Declared(n), n.end, c)
            && Effect(ws, t, env, Writes(n), LitWrites(n), n.end, a, c)
  {
    var avail, w := env.Keys, WalkIn(ws, n.inner, t).t;
    var values := EvaluateAll(n.targets, env, ReadAt(n.inner, a.st, b.st), choice.values);
    var (out, st) := Allocate(n.decls, [], env, b.st);
    var wide := TargetKeys(n.targets) + rest;
    var d := World(st, b.snaps);
    AssignParts(ws, log, n, t, avail);
    hide Sound, Live, Effect, EffectAt, Runnable, Placed, WellFormed, Sites, Sane, Claims, Frozen, PoolWrites, Storable, Stored,
         FreshCells, Extends, MoreCells, EnvSane, Unfrozen, Allocate, WalkIn, Writes, LitWrites, Lookup, AllRegistrations;
    hide StoreAll, EvaluateAll, Walk, WriteTargets, Grew, Blank, HeaderClean, EnvGrew, Masked, After;
    AssignWalked(ws, n, t, avail);
    LiveAllocate(ws, log, w, n.decls, [], env, b, wide);
    NewCellsUnseen(ws, log, b, st);
    AssignStored(ws, log, n, t, env, out, a, b, d, rest, choice.values);
    c := World(StoreAll(n.targets, out, st, values), d.snaps);
    AssignEffect(ws, n, t, env, out, a, b, d, c);
    DeclaredAreFresh(ws, n, t, env, out, a, b, d, c);
  }

  /** Once its variables are allocated, an assignment stores what the analysis claims. */
  lemma AssignStored(ws: set<Site>, log: seq<Entry>, n: Node, t: Tracker, env: Env, out: Env, a: World, b: World, d: World,
                     rest: set<Key>, unknown: seq<Value>)
    requires n.Assign? && Runnable(ws, log, n, t, env.Keys) && EnvSane(env, a.st) && Unfrozen(ws, a, env, Writes(n))
    requires Effect(ws, t, env, WritesIn(n.inner), LitWritesIn(n.inner), After(n.inner, n.pos), a, b)
    requires EnvGrew(env, out, Declared(n), |b.st.cells|) && forall l: nat :: Frozen(ws, d, l) <==> Frozen(ws, b, l)
    requires Live(ws, t, env, a.st, Writes(n) + rest)
    requires Live(ws, WalkIn(ws, n.inner, t).t, env, b.st, TargetKeys(n.targets) + rest)
    requires Live(ws, WalkIn(ws, n.inner, t).t, out, d.st, TargetKeys(n.targets) + rest) && Sound(ws, log, d)
    ensures var c := World(StoreAll(n.targets, out, d.st, EvaluateAll(n.targets, env, ReadAt(n.inner, a.st, b.st), unknown)), d.snaps);
            && Sound(ws, log, c) && Live(ws, Walk(ws, n, t).t, out, c.st, rest)
            && Stored(ws, out, TargetKeys(n.targets), d, c)
  {
    hide Sound, Live, Effect, EffectAt, Runnable, Placed, WellFormed, Sites, Sane, Claims, Frozen, PoolWrites, Storable, Stored,
         Unfrozen, WalkIn, Writes, LitWrites, Lookup, StoreAll, EvaluateAll, Walk, WriteTargets;
    var w := WalkIn(ws, n.inner, t).t;
    AssignParts(ws, log, n, t, env.Keys);
    AssignWalked(ws, n, t, env.Keys);
    AssignStorable(ws, log, n, t, env, out, a, b, d, rest, unknown);
    SaneWidens(ws, w.top, env.Keys, out.Keys);
    StoreTargets(ws, log, t, n.targets, EvaluateAll(n.targets, env, ReadAt(n.inner, a.st, b.st), unknown), out, d, w, n.pos, TargetKeys(n.targets) + rest);
    LiveNarrows(ws, Walk(ws, n, t).t, out, StoreAll(n.targets, out, d.st, EvaluateAll(n.targets, env, ReadAt(n.inner, a.st, b.st), unknown)), TargetKeys(n.targets) + rest, rest);
  }

  /** No function literal relies on the variables just declared. */
  lemma DeclaredAreFresh(ws: set<Site>, n: Node, t: Tracker, env: Env, out: Env, a: World, b: World, d: World, c: World)
    requires n.Assign? && EnvGrew(env, out, Declared(n), |b.st.cells|)
    requires Effect(ws, t, env, WritesIn(n.inner), LitWritesIn(n.inner), After(n.inner, n.pos), a, b)
    requires (forall l: nat :: Frozen(ws, d, l) <==> Frozen(ws, b, l)) && Stored(ws, out, TargetKeys(n.targets), d, c)
    ensures FreshCells(ws, t, out, Declared(n), n.end, c) && EnvGrew(env, out, Declared(n), |a.st.cells|)
  {
  }

  lemma AssignParts(ws: set<Site>, log: seq<Entry>, n: Node, t: Tracker, avail: set<Key>)
    requires n.Assign? && Runnable(ws, log, n, t, avail)
    ensures Placed(ws, n, t, avail) && (IsHeader(t.top.frame.kind) ==> HeaderClean(t)) && Declared(n) == KeySet(n.decls)
    ensures TargetKeys(n.targets) <= avail + KeySet(n.decls)
    ensures forall i, j | 0 <= i < j < |n.targets| :: n.targets[i].key != n.targets[j].key
    ensures Walk(ws, n, t).t == WriteTargets(ws, t, WalkIn(ws, n.inner, t).t, n.pos, n.targets)
  {
  }

  /** Where the walk of an assignment's expressions ends. */
  lemma AssignWalked(ws: set<Site>, n: Node, t: Tracker, avail: set<Key>)
    requires n.Assign? && Placed(ws, n, t, avail) && (IsHeader(t.top.frame.kind) ==> HeaderClean(t))
    ensures var w := WalkIn(ws, n.inner, t).t;
            && Sane(ws, w.top, avail) && Grew(t, w, WritesIn(n.inner)) && Blank(t.top.frame) == Blank(w.top.frame) && HeaderClean(w)
            && (forall k <- n.decls :: !Claims(ws, w, k))
    ensures After(n.inner, n.pos) <= n.end
  {
    var w := WalkIn(ws, n.inner, t).t;
    ExpressionsFit(t.top.frame.kind, n.inner);
    ExpressionsDeclareNothing(n.inner);
    WalkInKeeps(ws, n.inner, t, n.pos, n.end, avail);
    assert avail + DeclaredIn(n.inner) == avail;
    AfterIsAhead(n.inner, n.pos, n.end, avail);
    forall k | k in n.decls ensures !Claims(ws, w, k) {
      UnmentionedIsUnclaimed(ws, w, avail, k);
    }
    ExpressionsAreHeaderNodes(n.inner);
    if IsHeader(t.top.frame.kind) {
      HeaderNodesStayClean(ws, n.inner, t, n.pos, n.end, avail);
    }
  }

  /** No function literal knows the cells just allocated. */
  lemma NewCellsUnseen(ws: set<Site>, log: seq<Entry>, b: World, st: State)
    requires Sound(ws, log, b) && MoreCells(b, st)
    ensures var d := World(st, b.snaps);
            && Extends(b, d) && (forall l | 0 <= l < |b.st.cells| :: b.st.cells[l] == st.cells[l])
            && (forall l: nat :: PoolWrites(st, l) <==> PoolWrites(b.st, l))
            && (forall l: nat :: Frozen(ws, d, l) <==> Frozen(ws, b, l))
  {
    PoolEnvSane(ws, log, b);
    MoreCellsExtend(b, st);
    forall l: nat
      ensures PoolWrites(st, l) <==> PoolWrites(b.st, l)
      ensures Frozen(ws, World(st, b.snaps), l) <==> Frozen(ws, b, l)
    {
      MoreCellsPoolWrites(b, st, l);
      MoreCellsFrozen(ws, b, st, l);
    }
  }

  lemma AssignStorable(ws: set<Site>, log: seq<Entry>, n: Node, t: Tracker, env: Env, out: Env, a: World, b: World, d: World,
                       rest: set<Key>, unknown: seq<Value>)
    requires n.Assign? && Runnable(ws, log, n, t, env.Keys) && EnvSane(env, a.st) && Unfrozen(ws, a, env, Writes(n))
    requires Effect(ws, t, env, WritesIn(n.inner), LitWritesIn(n.inner), After(n.inner, n.pos), a, b)
    requires EnvGrew(env, out, Declared(n), |b.st.cells|) && forall l: nat :: Frozen(ws, d, l) <==> Frozen(ws, b, l)
    requires Live(ws, t, env, a.st, Writes(n) + rest)
    requires Live(ws, WalkIn(ws, n.inner, t).t, env, b.st, TargetKeys(n.targets) + rest)
    ensures Storable(ws, t, n.targets, EvaluateAll(n.targets, env, ReadAt(n.inner, a.st, b.st), unknown), out, d, WalkIn(ws, n.inner, t).t, n.pos, TargetKeys(n.targets) + rest)
  {
    var at := ReadAt(n.inner, a.st, b.st);
    var values := EvaluateAll(n.targets, env, at, unknown);
    AssignParts(ws, log, n, t, env.Keys);
    AssignWalked(ws, n, t, env.Keys);
    TargetsReady(ws, log, n, t, env, out, a, b, d);
    forall i | 0 <= i < |n.targets| && RhsBinding(ws, t, n.targets[i].rhs).value.resolved && Recorded(ws, t, n.targets[i])
               && n.targets[i].key !in t.captured
      ensures values[i] == Registrar(RhsBinding(ws, t, n.targets[i].rhs).value.path)
    {
      AssignReads(ws, n, t, env, at, if AreLiterals(n.inner) then Writes(n) + rest else TargetKeys(n.targets) + rest, unknown, i);
    }
  }

  /** Every target may be stored to, and is recorded or not as the analysis claims. */
  lemma TargetsReady(ws: set<Site>, log: seq<Entry>, n: Node, t: Tracker, env: Env, out: Env, a: World, b: World, d: World)
    requires n.Assign? && Runnable(ws, log, n, t, env.Keys) && EnvSane(env, a.st) && Unfrozen(ws, a, env, Writes(n))
    requires Effect(ws, t, env, WritesIn(n.inner), LitWritesIn(n.inner), After(n.inner, n.pos), a, b)
    requires EnvGrew(env, out, Declared(n), |b.st.cells|) && forall l: nat :: Frozen(ws, d, l) <==> Frozen(ws, b, l)
    ensures var w := WalkIn(ws, n.inner, t).t;
            forall x <- n.targets ::
              && x.key in out && !Frozen(ws, d, out[x.key]) && (x.key.from <= n.pos || Declares(w.top.frame, x.key))
              && (!Recorded(ws, t, x) ==> !Claims(ws, w, x.key))
              && (Recorded(ws, t, x) ==> Traceable(ws, x.key) || Touched(w.top, x.key))
  {
    var w := WalkIn(ws, n.inner, t).t;
    AssignWalked(ws, n, t, env.Keys);
    forall x | x in n.targets
      ensures x.key in out && !Frozen(ws, d, out[x.key]) && (x.key.from <= n.pos || Declares(w.top.frame, x.key))
      ensures !Recorded(ws, t, x) ==> !Claims(ws, w, x.key)
      ensures Recorded(ws, t, x) ==> Traceable(ws, x.key) || Touched(w.top, x.key)
    {
      assert x.key in TargetKeys(n.targets);
      TargetUnfrozen(ws, n, t, env, out, a, b, x.key);
      if Recorded(ws, t, x) {
        TargetTraced(ws, n, t, w, x);
      } else {
        UnrecordedIsUnclaimed(ws, n, t, env.Keys, x);
      }
    }
  }

  lemma TargetTraced(ws: set<Site>, n: Node, t: Tracker, w: Tracker, x: Target)
    requires n.Assign? && Sites(n) <= ws && x in n.targets && Recorded(ws, t, x) && Grew(t, w, WritesIn(n.inner))
    ensures Traceable(ws, x.key) || Touched(w.top, x.key)
  {
    RecordedIsTraced(ws, n, t, x);
    KnownGrows(t.top, w.top, WritesIn(n.inner), x.key);
    if Known(w.top, x.key) {
      KnownIsTouched(w.top, x.key);
    }
  }

  /** What an assignment writes is relied on by no function literal. */
  lemma TargetUnfrozen(ws: set<Site>, n: Node, t: Tracker, env: Env, out: Env, a: World, b: World, k: Key)
    requires n.Assign? && WellFormed(n, env.Keys) && Sites(n) <= ws && Unfrozen(ws, a, env, Writes(n))
    requires Effect(ws, t, env, WritesIn(n.inner), LitWritesIn(n.inner), After(n.inner, n.pos), a, b)
    requires EnvSane(env, a.st) && EnvGrew(env, out, Declared(n), |b.st.cells|)
    requires k in TargetKeys(n.targets)
    ensures k in out && !Frozen(ws, b, out[k])
  {
    if k in Declared(n) {
      assert k in out;
    } else {
      assert k in env && out[k] == env[k];
      AfterIsAhead(n.inner, n.pos, n.end, env.Keys);
      TargetIsNotQuiet(ws, t, n, k, After(n.inner, n.pos));
      assert k in Writes(n);
      assert EffectAt(ws, t, env, WritesIn(n.inner), LitWritesIn(n.inner), After(n.inner, n.pos), a, b, env[k]);
    }
  }

  lemma AssignEffect(ws: set<Site>, n: Node, t: Tracker, env: Env, out: Env, a: World, b: World, d: World, c: World)
    requires n.Assign?
    requires Effect(ws, t, env, WritesIn(n.inner), LitWritesIn(n.inner), After(n.inner, n.pos), a, b)
    requires After(n.inner, n.pos) <= n.end
    requires EnvGrew(env, out, Declared(n), |b.st.cells|)
    requires Extends(b, d) && (forall l | 0 <= l < |b.st.cells| :: b.st.cells[l] == d.st.cells[l])
    requires forall l: nat :: PoolWrites(d.st, l) <==> PoolWrites(b.st, l)
    requires forall l: nat :: Frozen(ws, d, l) <==> Frozen(ws, b, l)
    requires Stored(ws, out, TargetKeys(n.targets), d, c)
    ensures Effect(ws, t, env, Writes(n), LitWrites(n), n.end, a, c)
  {
    ExtendsTransitive(b, d, c);
    forall l | 0 <= l < |a.st.cells|
      ensures b.st.cells[l].value == c.st.cells[l].value || (At(env, a.st, l) && a.st.cells[l].owner in TargetKeys(n.targets))
    {
      assert a.st.cells[l].owner == b.st.cells[l].owner;
      assert d.st.cells[l] == b.st.cells[l];
    }
    EffectThenStores(ws, t, env, WritesIn(n.inner), LitWritesIn(n.inner), After(n.inner, n.pos), TargetKeys(n.targets), n.end, a, b, c);
    assert WritesIn(n.inner) + TargetKeys(n.targets) == Writes(n);
  }

  // ----- function literals

  /** What the body of a function literal claims of the variables around it nothing writes any more. */
  lemma LitClaims(ws: set<Site>, n: Node, t: Tracker, avail: set<Key>, k: Key)
    requires n.Scope? && n.kind.LitK? && Placed(ws, n, t, avail) && Sites(n) <= ws
    requires k in avail && Claims(ws, Enter(t, n), k)
    ensures Lookup(ws, Enter(t, n), k) == Lookup(ws, t, k)
    ensures k !in Writes(n) && Quiet(ws, t, k, n.end)
  {
    MaskedIsSame(t);
    EnterClaims(ws, t, n, k);
    if KilledWithin(ws, t.top, k) {
      DoomedIsUnresolved(ws, t, k, avail);
    }
    if k in Writes(n) {
      RepeatableKills(ws, n, avail, k);
    }
  }

  lemma LitPoolWrites(a: World, n: Node, env: Env, st: State, l: nat)
    requires n.Scope? && st == a.st.(pool := a.st.pool + [Closure(n, env)])
    ensures PoolWrites(st, l) <==> PoolWrites(a.st, l) || (l < |a.st.cells| && At(env, a.st, l) && a.st.cells[l].owner in Writes(n))
  {
    if PoolWrites(a.st, l) {
      var c :| c in a.st.pool && At(c.env, a.st, l) && a.st.cells[l].owner in Writes(c.lit);
      assert c in st.pool && At(c.env, st, l);
    }
    if PoolWrites(st, l) {
      var c :| c in st.pool && At(c.env, st, l) && st.cells[l].owner in Writes(c.lit);
      assert At(c.env, a.st, l);
    }
    assert Closure(n, env) in st.pool;
    if l < |a.st.cells| && At(env, a.st, l) {
      assert At(Closure(n, env).env, st, l);
    }
  }

  lemma LitFrozen(ws: set<Site>, a: World, n: Node, env: Env, t: Tracker, b: World, l: nat)
    requires n.Scope? && |a.snaps| == |a.st.pool|
    requires b == World(a.st.(pool := a.st.pool + [Closure(n, env)]), a.snaps + [t])
    requires Frozen(ws, b, l)
    ensures Frozen(ws, a, l) || (At(env, a.st, l) && Claims(ws, Enter(t, n), a.st.cells[l].owner))
  {
    var i :| 0 <= i < |b.snaps| && i < |b.st.pool|
             && At(b.st.pool[i].env, b.st, l) && Claims(ws, BodyStart(b.st.pool[i], b.snaps[i]), b.st.cells[l].owner);
    if i < |a.snaps| {
      assert b.st.pool[i] == a.st.pool[i] && b.snaps[i] == a.snaps[i];
      assert At(a.st.pool[i].env, a.st, l);
    }
  }

  /** Creating a function literal: its body's claims hold, and no other claim is lost. */
  lemma LitCreated(ws: set<Site>, log: seq<Entry>, n: Node, env: Env, a: World, t: Tracker, rest: set<Key>) returns (b: World)
    requires n.Scope? && n.kind.LitK? && Runnable(ws, log, n, t, env.Keys)
    requires Sound(ws, log, a) && Live(ws, t, env, a.st, Writes(n) + rest) && Unfrozen(ws, a, env, Writes(n))
    ensures b.st == a.st.(pool := a.st.pool + [Closure(n, env)])
    ensures Sound(ws, log, b) && Live(ws, Walk(ws, n, t).t, env, b.st, rest)
    ensures Effect(ws, t, env, Writes(n), LitWrites(n), n.end, a, b)
  {
    b := World(a.st.(pool := a.st.pool + [Closure(n, env)]), a.snaps + [t]);
    assert Extends(a, b);
    forall l | 0 <= l < |a.st.cells|
      ensures EffectAt(ws, t, env, Writes(n), LitWrites(n), n.end, a, b, l)
    {
      LitPoolWrites(a, n, env, b.st, l);
      if Frozen(ws, b, l) && !Frozen(ws, a, l) {
        LitFrozen(ws, a, n, env, t, b, l);
        LitClaims(ws, n, t, env.Keys, a.st.cells[l].owner);
      }
    }
    forall i | 0 <= i < |b.snaps|
      ensures ClosureLive(ws, log, b.st.pool[i], b.snaps[i], b.st)
    {
      if i < |a.snaps| {
        LitSparesOthers(ws, log, n, env, a, b, t, i);
      } else {
        LitStarts(ws, log, n, env, a, b, t, rest);
      }
    }
    LitAfter(ws, log, n, env, a, b, t, rest);
  }

  lemma LitSparesOthers(ws: set<Site>, log: seq<Entry>, n: Node, env: Env, a: World, b: World, t: Tracker, i: nat)
    requires Effect(ws, t, env, Writes(n), LitWrites(n), n.end, a, b) && LitWrites(n) <= Writes(n)
    requires Sound(ws, log, a) && i < |a.snaps|
    requires EnvSane(env, a.st) && Unfrozen(ws, a, env, Writes(n))
    ensures ClosureLive(ws, log, a.st.pool[i], a.snaps[i], b.st)
  {
    var c, start := a.st.pool[i], BodyStart(a.st.pool[i], a.snaps[i]);
    assert ClosureLive(ws, log, c, a.snaps[i], a.st);
    forall k | k in c.env && At(env, a.st, c.env[k]) && k in Writes(n)
      ensures !Claims(ws, start, k)
    {
      var l := c.env[k];
      assert At(c.env, a.st, l) && env[k] == l;
      assert Claims(ws, start, k) ==> Frozen(ws, a, l);
    }
    LiveUnder(ws, start, c.env, {}, t, env, Writes(n), LitWrites(n), n.end, a, b);
  }

  lemma LitStarts(ws: set<Site>, log: seq<Entry>, n: Node, env: Env, a: World, b: World, t: Tracker, rest: set<Key>)
    requires n.Scope? && n.kind.LitK? && Runnable(ws, log, n, t, env.Keys)
    requires b == World(a.st.(pool := a.st.pool + [Closure(n, env)]), a.snaps + [t])
    requires Live(ws, t, env, a.st, Writes(n) + rest)
    ensures ClosureLive(ws, log, Closure(n, env), t, b.st)
  {
    forall k | k in env ensures ClaimHolds(ws, Enter(t, n), env, b.st, k) {
      assert ClaimHolds(ws, t, env, a.st, k);
      LitPoolWrites(a, n, env, b.st, env[k]);
      if Claims(ws, Enter(t, n), k) {
        LitClaims(ws, n, t, env.Keys, k);
      }
    }
  }

  lemma LitAfter(ws: set<Site>, log: seq<Entry>, n: Node, env: Env, a: World, b: World, t: Tracker, rest: set<Key>)
    requires n.Scope? && n.kind.LitK? && Runnable(ws, log, n, t, env.Keys)
    requires b == World(a.st.(pool := a.st.pool + [Closure(n, env)]), a.snaps + [t])
    requires Live(ws, t, env, a.st, Writes(n) + rest)
    ensures Live(ws, Walk(ws, n, t).t, env, b.st, rest)
  {
    var r := Walk(ws, n, t).t;
    WalkScopeKeeps(ws, n, t, env.Keys);
    WalkTracks(ws, n, t);
    forall k | k in env
      ensures ClaimHolds(ws, r, env, b.st, k)
      ensures k in rest && PoolWrites(b.st, env[k]) ==> Doomed(ws, r, k)
    {
      assert ClaimHolds(ws, t, env, a.st, k);
      LitPoolWrites(a, n, env, b.st, env[k]);
      if k in Writes(n) {
        ScopeNotes(ws, n, t, env.Keys, k);
        DoomedIsUnresolved(ws, r, k, env.Keys);
      } else {
        UnwrittenKeepsBinding(ws, t, r, Writes(n), k);
        if k in rest && PoolWrites(a.st, env[k]) {
          DoomedGrows(ws, t, r, Writes(n), k);
        }
      }
    }
  }

  // ----- between the steps

  /** Cells relied on after a step are written by nothing that follows. */
  lemma UnfrozenAfter(ws: set<Site>, t: Tracker, env: Env, w: set<Key>, lw: set<Key>, end: Pos, a: World, b: World,
                      out: Env, decls: set<Key>, ns: Nodes, hi: Pos)
    requires Effect(ws, t, env, w, lw, end, a, b) && EnvSane(env, a.st)
    requires EnvGrew(env, out, decls, |a.st.cells|) && FreshCells(ws, t, out, decls, end, b)
    requires WellFormedIn(ns, end, hi, out.Keys) && SitesIn(ns) <= ws
    requires Unfrozen(ws, a, env, WritesIn(ns))
    ensures Unfrozen(ws, b, out, WritesIn(ns))
  {
    forall k | k in out && k in WritesIn(ns) ensures !Frozen(ws, b, out[k]) {
      WrittenIsNotQuiet(ws, t, ns, end, hi, out.Keys, k);
      if k !in decls {
        assert EffectAt(ws, t, env, w, lw, end, a, b, env[k]);
      }
    }
  }

  lemma QuietByOutline(ws: set<Site>, t: Tracker, u: Tracker, k: Key, end: Pos)
    requires Outline(t.top) == Outline(u.top)
    ensures Quiet(ws, t, k, end) == Quiet(ws, u, k, end)
  {
    KilledByOutline(ws, t.top, u.top, k);
  }

  lemma LiveNarrows(ws: set<Site>, t: Tracker, env: Env, st: State, w: set<Key>, x: set<Key>)
    requires Live(ws, t, env, st, w) && x <= w
    ensures Live(ws, t, env, st, x)
  {
  }

  /** A tracker that claims no more is live where the other is. */
  lemma LiveWeakens(ws: set<Site>, t: Tracker, u: Tracker, env: Env, st: State, w: set<Key>, x: set<Key>)
    requires Live(ws, t, env, st, w) && x <= w
    requires forall k <- env :: Claims(ws, u, k) ==> Lookup(ws, u, k) == Lookup(ws, t, k)
    requires forall k <- env :: Doomed(ws, t, k) ==> Doomed(ws, u, k)
    ensures Live(ws, u, env, st, x)
  {
    forall k | k in env ensures ClaimHolds(ws, u, env, st, k) {
      assert ClaimHolds(ws, t, env, st, k);
    }
  }

  /** Entering a scope claims nothing new. */
  lemma LiveEnter(ws: set<Site>, n: Node, t: Tracker, env: Env, st: State, w: set<Key>)
    requires n.Scope? && n.kind != RootK && WellFormed(n, env.Keys) && Live(ws, Masked(t), env, st, w)
    ensures Live(ws, Enter(t, n), env, st, w)
  {
    forall k | k in env
      ensures Claims(ws, Enter(t, n), k) ==> Lookup(ws, Enter(t, n), k) == Lookup(ws, Masked(t), k)
      ensures Doomed(ws, Masked(t), k) ==> Doomed(ws, Enter(t, n), k)
    {
      if Claims(ws, Enter(t, n), k) {
        EnterClaims(ws, t, n, k);
      }
      if Doomed(ws, Masked(t), k) {
        EnterDooms(ws, t, n, k);
      }
    }
    LiveWeakens(ws, Masked(t), Enter(t, n), env, st, w, w);
  }

  /** What running a scope's parts does, seen from outside it. */
  lemma ScopeEffect(ws: set<Site>, n: Node, t: Tracker, env: Env, end: Pos, a: World, b: World)
    requires n.Scope? && n.kind != RootK && WellFormed(n, env.Keys) && end <= n.end
    requires Effect(ws, Enter(t, n), env, Writes(n), LitWritesIn(n.header) + LitWritesIn(n.body), end, a, b)
    requires LitWritesIn(n.header) + LitWritesIn(n.body) <= LitWrites(n)
    ensures Effect(ws, Masked(t), env, Writes(n), LitWrites(n), n.end, a, b)
  {
    var e := Enter(t, n);
    forall k | k in env
      ensures Quiet(ws, e, k, end) ==> Quiet(ws, Masked(t), k, n.end)
      ensures Claims(ws, e, k) ==> Claims(ws, Masked(t), k)
    {
      MaskedLookup(ws, t, k);
      KilledByOutline(ws, Masked(t).top, e.top.parent, k);
      if Claims(ws, e, k) {
        EnterClaims(ws, t, n, k);
      }
    }
    EffectWidens(ws, Masked(t), e, env, env, Writes(n), LitWrites(n), n.end,
                 Writes(n), LitWritesIn(n.header) + LitWritesIn(n.body), end, a, b);
  }

  /** a, h, b: before a statement, after its header, after it. */
  ghost predicate Merging(ws: set<Site>, n: Node, t: Tracker, env: Env, envh: Env, rest: set<Key>, endh: Pos, end: Pos, a: World, h: World, b: World) {
    && n.Scope? && Placed(ws, n, t, env.Keys) && !n.kind.LitK? && NothingLost(Walk(ws, n, t).log)
    && !IsBranching(t.top.frame.kind) && !IsBareBlock(NewFrame(n, map[]), t.top.frame)
    && Live(ws, t, env, a.st, Writes(n) + rest)
    && Effect(ws, t, env, Writes(n), LitWrites(n), end, a, b)
    && Extends(a, h) && Live(ws, HeaderWalked(ws, n, t), envh, h.st, WritesIn(n.body) + rest)
    && EnvGrew(env, envh, DeclaredIn(n.header), |a.st.cells|)
    && Effect(ws, HeaderWalked(ws, n, t), envh, WritesIn(n.body), LitWritesIn(n.body), endh, h, b)
  }

  lemma MergeClaim(ws: set<Site>, n: Node, t: Tracker, env: Env, envh: Env, rest: set<Key>, endh: Pos, end: Pos, a: World, h: World, b: World, k: Key)
    requires Merging(ws, n, t, env, envh, rest, endh, end, a, h, b)
    requires EnvSane(env, b.st) && k in env && Claims(ws, Walk(ws, n, t).t, k)
    ensures ClaimHolds(ws, Walk(ws, n, t).t, env, b.st, k)
  {
    hide Sane, Walk, WalkIn;
    MergeClaims(ws, n, t, env.Keys, k);
    if k in WritesIn(n.header) {
      ScopeDeclares(n, env.Keys);
      LitWritesInAreWrites(n.body);
      assert k !in DeclaredIn(n.header);
      assert ClaimHolds(ws, HeaderWalked(ws, n, t), envh, h.st, k);
      assert EffectAt(ws, HeaderWalked(ws, n, t), envh, WritesIn(n.body), LitWritesIn(n.body), endh, h, b, env[k]);
    } else {
      LitWritesAreWrites(n);
      assert ClaimHolds(ws, t, env, a.st, k);
      assert EffectAt(ws, t, env, Writes(n), LitWrites(n), end, a, b, env[k]);
    }
  }

  lemma MergeDoom(ws: set<Site>, n: Node, t: Tracker, env: Env, rest: set<Key>, end: Pos, a: World, b: World, k: Key)
    requires n.Scope? && Placed(ws, n, t, env.Keys) && NothingLost(Walk(ws, n, t).log)
    requires Live(ws, t, env, a.st, Writes(n) + rest)
    requires Effect(ws, t, env, Writes(n), LitWrites(n), end, a, b)
    requires k in env && k in rest && PoolWrites(b.st, env[k])
    ensures Doomed(ws, Walk(ws, n, t).t, k)
  {
    WalkScopeKeeps(ws, n, t, env.Keys);
    WalkTracks(ws, n, t);
    assert EffectAt(ws, t, env, Writes(n), LitWrites(n), end, a, b, env[k]);
    if PoolWrites(a.st, env[k]) {
      DoomedGrows(ws, t, Walk(ws, n, t).t, Writes(n), k);
    } else {
      WalkCaptures(ws, n, t, env.Keys, k);
    }
  }

  /** After a statement that may not have run what it holds. */
  lemma MergeLive(ws: set<Site>, n: Node, t: Tracker, env: Env, envh: Env, rest: set<Key>, endh: Pos, end: Pos, a: World, h: World, b: World)
    requires Merging(ws, n, t, env, envh, rest, endh, end, a, h, b)
    ensures Live(ws, Walk(ws, n, t).t, env, b.st, rest)
  {
    forall k | k in env
      ensures ClaimHolds(ws, Walk(ws, n, t).t, env, b.st, k)
      ensures k in rest && PoolWrites(b.st, env[k]) ==> Doomed(ws, Walk(ws, n, t).t, k)
    {
      if Claims(ws, Walk(ws, n, t).t, k) {
        MergeClaim(ws, n, t, env, envh, rest, endh, end, a, h, b, k);
      }
      if k in rest && PoolWrites(b.st, env[k]) {
        MergeDoom(ws, n, t, env, rest, end, a, b, k);
      }
    }
  }

  /** After a bare block. */
  lemma CarryLive(ws: set<Site>, n: Node, t: Tracker, env: Env, out: Env, cells: nat, st: State, rest: set<Key>)
    requires n.Scope? && Placed(ws, n, t, env.Keys) && IsBareBlock(NewFrame(n, map[]), t.top.frame)
    requires EnvGrew(env, out, DeclaredIn(n.body), cells)
    requires Live(ws, BodyWalked(ws, n, t), out, st, rest)
    ensures Live(ws, Walk(ws, n, t).t, env, st, rest)
  {
    ScopeDeclares(n, env.Keys);
    forall k | k in env
      ensures k in out && out[k] == env[k]
      ensures Lookup(ws, Walk(ws, n, t).t, k) == Lookup(ws, BodyWalked(ws, n, t), k)
      ensures Doomed(ws, BodyWalked(ws, n, t), k) ==> Doomed(ws, Walk(ws, n, t).t, k)
    {
      CarryClaims(ws, n, t, env.Keys, k);
    }
    forall k | k in env ensures ClaimHolds(ws, Walk(ws, n, t).t, env, st, k) {
      assert ClaimHolds(ws, BodyWalked(ws, n, t), out, st, k);
    }
  }
}
