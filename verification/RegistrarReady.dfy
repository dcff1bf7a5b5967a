/** What a run starts from, and how its steps hand it on. */
module RegistrarReady {
  import opened Wrappers
  import opened RegistrarSyntax
  import opened RegistrarTracker
  import opened RegistrarStructure
  import opened RegistrarInvariants
  import opened RegistrarNotes
  import opened RegistrarSemantics
  import opened RegistrarWorld
  import opened RegistrarSteps
  import opened RegistrarClaims
  import opened RegistrarAssign
  import opened RegistrarSoundness

  /** What a run starts from: every claim holds, and nothing it writes is relied on. */
  predicate Ready(ws: set<Site>, log: seq<Entry>, t: Tracker, env: Env, w: set<Key>, rest: set<Key>, a: World) {
    Sound(ws, log, a) && Live(ws, Masked(t), env, a.st, w + rest) && Unfrozen(ws, a, env, w)
  }

  // ----- calling a function literal

  lemma ClosurePlaced(ws: set<Site>, log: seq<Entry>, c: Closure, snap: Tracker)
    requires ClosureSane(ws, log, c, snap) && AllRegistrations(log)
    ensures Placed(ws, c.lit, snap, c.env.Keys)
    ensures RunnableIn(ws, log, c.lit.body, Enter(snap, c.lit), c.lit.pos, c.lit.end, InnerScope(c.lit, c.env.Keys))
    ensures Masked(Enter(snap, c.lit)) == Enter(snap, c.lit)
  {
    assert AllRegistrations(Walk(ws, c.lit, snap).log) by {
      forall e | e in Walk(ws, c.lit, snap).log ensures e.Registration? {
        assert e in log;
      }
    }
    LitBodyWalked(ws, c.lit, snap, c.env.Keys);
    assert Placed(ws, c.lit, snap, c.env.Keys) && SitesIn(c.lit.body) <= Sites(c.lit) && Enter(snap, c.lit).top.frame.kind == LitK;
    hide WellFormed, WellFormedIn, Walk, WalkIn, Sites, SitesIn, Writes, Sane, PlacedIn, Placed, Masked;
    ScopeSteps(ws, c.lit, snap, c.env.Keys);
    MaskedIsSame(Enter(snap, c.lit));
  }

  /** A function literal has no header: its body's walk is all of its walk. */
  lemma LitBodyWalked(ws: set<Site>, n: Node, t: Tracker, avail: set<Key>)
    requires n.Scope? && n.kind.LitK? && WellFormed(n, avail)
    ensures n.header == Nil && HeaderWalked(ws, n, t) == Enter(t, n) && After(n.header, n.pos) == n.pos
    ensures Walk(ws, n, t).log == WalkIn(ws, n.body, Enter(t, n)).log
  {
    var e := Enter(t, n);
    assert WalkIn(ws, Nil, e) == Walked(e, []);
    assert [] + WalkIn(ws, n.body, e).log == WalkIn(ws, n.body, e).log;
  }

  /** Nothing a function literal writes is relied on by another. */
  lemma PoolWritesUnfrozen(ws: set<Site>, log: seq<Entry>, a: World, l: nat)
    requires Sound(ws, log, a) && PoolWrites(a.st, l)
    ensures !Frozen(ws, a, l)
  {
  }

  /** What a function literal writes around it is relied on by none, and killed inside it. */
  lemma InvokedWrites(ws: set<Site>, log: seq<Entry>, c: Closure, snap: Tracker, a: World, k: Key)
    requires Sound(ws, log, a) && c in a.st.pool && ClosureSane(ws, log, c, snap) && EnvSane(c.env, a.st)
    requires k in c.env && k in WritesIn(c.lit.body)
    ensures !Frozen(ws, a, c.env[k]) && PoolWrites(a.st, c.env[k]) && Doomed(ws, Enter(snap, c.lit), k)
  {
    RepeatableKills(ws, c.lit, c.env.Keys, k);
    hide Sound, WellFormed, Sane, Sites, Walk;
    assert At(c.env, a.st, c.env[k]);
    PoolWritesUnfrozen(ws, log, a, c.env[k]);
  }

  lemma InvokeReady(ws: set<Site>, log: seq<Entry>, target: nat, out: Env, a: World, x: World)
    requires Sound(ws, log, a) && AllRegistrations(log) && target < |a.st.pool|
    requires MoreCells(a, x.st) && x.snaps == a.snaps && Sound(ws, log, x)
    requires forall c <- a.st.pool :: EnvSane(c.env, a.st)
    requires var c := a.st.pool[target];
             c.lit.Scope? && Live(ws, Enter(a.snaps[target], c.lit), out, x.st, {})
             && EnvGrew(c.env, out, KeySet(c.lit.declares), |a.st.cells|)
             && ClosureSane(ws, log, c, a.snaps[target])
    ensures var c := a.st.pool[target];
            Ready(ws, log, Enter(a.snaps[target], c.lit), out, WritesIn(c.lit.body), {}, x)
  {
    hide WellFormed, WellFormedIn, Sane, Walk, WalkIn, Sites, SitesIn, Writes, WritesIn, LitWrites, LitWritesIn, Lookup, Outline, Masked,
         Doomed;
    var c, e := a.st.pool[target], Enter(a.snaps[target], a.st.pool[target].lit);
    ClosurePlaced(ws, log, c, a.snaps[target]);
    hide Sound, ClosureSane, Doomed, Claims, Walk, WalkIn, Sites, WellFormed, RunnableIn, Placed, Writes, WritesIn;
    forall k | k in out && k in WritesIn(c.lit.body)
      ensures !Frozen(ws, x, out[k])
      ensures PoolWrites(x.st, out[k]) ==> Doomed(ws, e, k)
    {
      MoreCellsFrozen(ws, a, x.st, out[k]);
      MoreCellsPoolWrites(a, x.st, out[k]);
      if k !in KeySet(c.lit.declares) {
        assert out[k] == c.env[k];
        InvokedWrites(ws, log, c, a.snaps[target], a, k);
      }
    }
  }

  lemma InvokeEffect(ws: set<Site>, log: seq<Entry>, target: nat, out: Env, endb: Pos, a: World, x: World, b: World)
    requires Sound(ws, log, a) && AllRegistrations(log) && target < |a.st.pool|
    requires MoreCells(a, x.st) && x.snaps == a.snaps
    requires forall c <- a.st.pool :: EnvSane(c.env, a.st)
    requires var c := a.st.pool[target];
             && ClosureSane(ws, log, c, a.snaps[target])
             && EnvGrew(c.env, out, KeySet(c.lit.declares), |a.st.cells|)
             && Effect(ws, Enter(a.snaps[target], c.lit), out, WritesIn(c.lit.body), LitWritesIn(c.lit.body), endb, x, b)
    ensures Undisturbed(ws, a, b)
  {
    var c := a.st.pool[target];
    var e := Enter(a.snaps[target], c.lit);
    MoreCellsExtend(a, x.st);
    ExtendsTransitive(a, x, b);
    LitWritesInAreWrites(c.lit.body);
    forall l | 0 <= l < |a.st.cells| ensures UndisturbedAt(ws, a, b, l) {
      MoreCellsFrozen(ws, a, x.st, l);
      MoreCellsPoolWrites(a, x.st, l);
      assert EffectAt(ws, e, out, WritesIn(c.lit.body), LitWritesIn(c.lit.body), endb, x, b, l);
      var k := a.st.cells[l].owner;
      assert x.st.cells[l] == a.st.cells[l];
      if At(out, x.st, l) {
        assert At(c.env, a.st, l);
        if k in WritesIn(c.lit.body) {
          assert PoolWrites(a.st, l);
          RepeatableKills(ws, c.lit, c.env.Keys, k);
        } else if Claims(ws, e, k) {
          assert Frozen(ws, a, l) by {
            assert At(a.st.pool[target].env, a.st, l);
          }
        }
      }
    }
  }

  // ----- lists of nodes

  lemma NothingFellThrough(ws: set<Site>, t: Tracker, avail: set<Key>)
    requires Sane(ws, t.top, avail) && !t.top.frame.kind.CasesK?
    ensures t.top.frame.fallthroughWrites == {} && Masked(t) == t
  {
    MaskedIsSame(t);
  }

  /** A list that can be run, taken apart. */
  lemma HeadRunnable(ws: set<Site>, log: seq<Entry>, ns: Nodes, t: Tracker, lo: Pos, hi: Pos, avail: set<Key>)
    requires ns.Cons? && RunnableIn(ws, log, ns, t, lo, hi, avail)
    ensures Runnable(ws, log, ns.head, t, avail)
    ensures var u := Walk(ws, ns.head, t).t;
            && Grew(t, u, Writes(ns.head))
            && RunnableIn(ws, log, ns.tail, u, ns.head.end, hi, avail + Declared(ns.head))
            && WalkIn(ws, ns, t).t == WalkIn(ws, ns.tail, u).t
            && u.top.frame.kind == t.top.frame.kind && Outline(t.top) == Outline(u.top)
    ensures t.top.frame.kind.CasesK? ==> !InSequence(t.top.frame.kind, ns)
    ensures !t.top.frame.kind.CasesK? ==> Walk(ws, ns.head, t).t.top.frame.fallthroughWrites == {}
  {
    hide Walk, LookupFrom, Outline, Masked, Claims, Doomed, Live;
    hide Sane, WellFormed, Sites, Writes;
    var w := Walk(ws, ns.head, t);
    var v := WalkIn(ws, ns.tail, w.t);
    AllRegistrationsSplit(w.log, v.log);
    assert forall j <- Declared(ns.head) + DeclaredIn(ns.tail) :: j in DeclaredIn(ns);
    WalkKeeps(ws, ns.head, t, avail);
    assert Blank(t.top.frame) == Blank(w.t.top.frame);
    assert forall j <- DeclaredIn(ns.tail) :: Declares(t.top.frame, j) ==> Declares(w.t.top.frame, j);
    forall e | e in w.log || e in v.log ensures e in log {
      assert e in WalkIn(ws, ns, t).log;
    }
    if IsHeader(t.top.frame.kind) && AreHeaderNodes(ns) && HeaderClean(t) {
      HeaderNodeStaysClean(ws, ns.head, t, avail);
    }
    StackGrewOutline(t.top, w.t.top, Writes(ns.head));
    if !t.top.frame.kind.CasesK? {
      NothingFellThrough(ws, w.t, avail + Declared(ns.head));
    }
  }

  lemma {:induction false} DeclaredAreNew(ns: Nodes, lo: Pos, hi: Pos, avail: set<Key>)
    requires WellFormedIn(ns, lo, hi, avail)
    ensures avail !! DeclaredIn(ns)
    decreases ns
  {
    if ns.Cons? {
      DeclaredAreNew(ns.tail, ns.head.end, hi, avail + Declared(ns.head));
    }
  }

  lemma HeadFacts(ws: set<Site>, log: seq<Entry>, ns: Nodes, t: Tracker, lo: Pos, hi: Pos, avail: set<Key>)
    requires ns.Cons? && RunnableIn(ws, log, ns, t, lo, hi, avail)
    ensures var u := Walk(ws, ns.head, t).t;
            && (!t.top.frame.kind.CasesK? ==> Masked(t) == t && Masked(u) == u)
            && ns.head.end <= After(ns.tail, ns.head.end) && LitWrites(ns.head) <= Writes(ns.head)
            && (avail + Declared(ns.head)) !! DeclaredIn(ns.tail)
  {
    var u := Walk(ws, ns.head, t).t;
    HeadRunnable(ws, log, ns, t, lo, hi, avail);
    if !t.top.frame.kind.CasesK? {
      NothingFellThrough(ws, t, avail);
      NothingFellThrough(ws, u, avail + Declared(ns.head));
    }
    AfterIsAhead(ns.tail, ns.head.end, hi, avail + Declared(ns.head));
    LitWritesAreWrites(ns.head);
    DeclaredAreNew(ns.tail, ns.head.end, hi, avail + Declared(ns.head));
  }

  /** What the first node's walk changes, for what the rest does. */
  lemma HeadClaims(ws: set<Site>, log: seq<Entry>, ns: Nodes, t: Tracker, lo: Pos, hi: Pos, avail: set<Key>, k: Key, end: Pos)
    requires ns.Cons? && RunnableIn(ws, log, ns, t, lo, hi, avail) && !t.top.frame.kind.CasesK?
    ensures var u := Walk(ws, ns.head, t).t;
            && (Quiet(ws, u, k, end) <==> Quiet(ws, t, k, end))
            && (Claims(ws, u, k) ==> Claims(ws, t, k) || k in Writes(ns.head))
  {
    var u := Walk(ws, ns.head, t).t;
    HeadRunnable(ws, log, ns, t, lo, hi, avail);
    QuietByOutline(ws, t, u, k, end);
    if k !in Writes(ns.head) {
      UnwrittenKeepsBinding(ws, t, u, Writes(ns.head), k);
    }
  }

  /** The variables two lists declare are all new. */
  lemma FreshThen(ws: set<Site>, t: Tracker, u: Tracker, env: Env, out1: Env, out2: Env, d1: set<Key>, d2: set<Key>,
                  w: set<Key>, lw: set<Key>, end1: Pos, end: Pos, cells: nat, c: World, b: World)
    requires FreshCells(ws, t, out1, d1, end1, c) && FreshCells(ws, u, out2, d2, end, b)
    requires Effect(ws, u, out1, w, lw, end, c, b) && cells <= |c.st.cells|
    requires EnvGrew(env, out1, d1, cells) && EnvGrew(out1, out2, d2, |c.st.cells|) && out1.Keys !! d2
    requires EnvSane(out1, c.st)
    requires end1 <= end
    requires forall k :: Quiet(ws, u, k, end) <==> Quiet(ws, t, k, end)
    ensures FreshCells(ws, t, out2, d1 + d2, end, b) && EnvGrew(env, out2, d1 + d2, cells)
  {
    forall k | k in d1 + d2 && k in out2 && Frozen(ws, b, out2[k]) ensures Quiet(ws, t, k, end) {
      if k in d1 {
        assert k in out1 && k !in d2 && out2[k] == out1[k];
        assert EffectAt(ws, u, out1, w, lw, end, c, b, out1[k]);
      }
    }
  }

  /** Two runs in a row, put together. */
  lemma RanThen(ws: set<Site>, log: seq<Entry>, ns: Nodes, t: Tracker, lo: Pos, hi: Pos, env: Env, o: Outcome, q: Outcome, a: World, c: World, b: World)
    requires ns.Cons? && RunnableIn(ws, log, ns, t, lo, hi, env.Keys) && !t.top.frame.kind.CasesK?
    requires Ran(ws, log, t, env, Writes(ns.head), LitWrites(ns.head), ns.head.end, Declared(ns.head), o, a, c) && o.normal
    requires Ran(ws, log, Walk(ws, ns.head, t).t, o.env, WritesIn(ns.tail), LitWritesIn(ns.tail), After(ns.tail, ns.head.end), DeclaredIn(ns.tail), q, c, b)
    ensures Ran(ws, log, t, env, WritesIn(ns), LitWritesIn(ns), After(ns, lo), DeclaredIn(ns), q, a, b)
  {
    var u, end := Walk(ws, ns.head, t).t, After(ns.tail, ns.head.end);
    forall k
      ensures Quiet(ws, u, k, end) <==> Quiet(ws, t, k, end)
      ensures Claims(ws, u, k) ==> Claims(ws, t, k) || k in Writes(ns.head)
    {
      HeadClaims(ws, log, ns, t, lo, hi, env.Keys, k, end);
    }
    HeadFacts(ws, log, ns, t, lo, hi, env.Keys);
    hide Quiet, Claims, Sound, Frozen, PoolWrites, EffectAt, RunnableIn, Walk, Writes, LitWrites, FreshCells, Masked, EnvSane;
    EffectThen(ws, t, u, env, o.env, Writes(ns.head), LitWrites(ns.head), ns.head.end,
               WritesIn(ns.tail), LitWritesIn(ns.tail), end, a, c, b);
    if q.normal {
      FreshThen(ws, t, u, env, o.env, q.env, Declared(ns.head), DeclaredIn(ns.tail), WritesIn(ns.tail), LitWritesIn(ns.tail),
                ns.head.end, end, |a.st.cells|, c, b);
    }
  }

  lemma UndisturbedSound(ws: set<Site>, log: seq<Entry>, a: World)
    requires Sound(ws, log, a)
    ensures Undisturbed(ws, a, a)
  {
    UndisturbedNothing(ws, a);
  }

  /** A run that stopped, or that only called function literals afterwards. */
  lemma RanAndStopped(ws: set<Site>, log: seq<Entry>, ns: Nodes, t: Tracker, lo: Pos, hi: Pos, env: Env, o: Outcome, q: Outcome, a: World, c: World, b: World)
    requires ns.Cons? && RunnableIn(ws, log, ns, t, lo, hi, env.Keys)
    requires Ran(ws, log, t, env, Writes(ns.head), LitWrites(ns.head), ns.head.end, Declared(ns.head), o, a, c)
    requires Undisturbed(ws, c, b) && Sound(ws, log, b) && q.st == b.st
    requires q.normal ==> o.normal && ns.tail.Nil? && q.env == o.env
    ensures Ran(ws, log, t, env, WritesIn(ns), LitWritesIn(ns), After(ns, lo), DeclaredIn(ns), q, a, b)
  {
    hide WellFormed, WellFormedIn, Sane, Walk, WalkIn, Sites, SitesIn, Writes, LitWrites, Lookup, Outline, Masked, Claims, Doomed, Live,
         Sound, EffectAt, Effect, Placed, PlacedIn, Grew, AllRegistrations, Enter, Leave, Frozen, Quiet;
    HeadFacts(ws, log, ns, t, lo, hi, env.Keys);
    hide Quiet, Claims, Sound, Frozen, PoolWrites, RunnableIn, EffectAt, UndisturbedAt, Walk, Writes, LitWrites, Masked, FreshCells;
    EffectThenUndisturbed(ws, Masked(t), env, Writes(ns.head), LitWrites(ns.head), ns.head.end, a, c, b);
    EffectLater(ws, Masked(t), env, WritesIn(ns), LitWritesIn(ns), After(ns, lo), Writes(ns.head), LitWrites(ns.head), ns.head.end, a, b);
    if q.normal {
      FreshUndisturbed(ws, Masked(t), o.env, DeclaredIn(ns), ns.head.end, c, b);
      assert After(ns, lo) == ns.head.end;
    }
  }

  lemma FreshUndisturbed(ws: set<Site>, t: Tracker, out: Env, decls: set<Key>, end: Pos, c: World, b: World)
    requires FreshCells(ws, t, out, decls, end, c) && Undisturbed(ws, c, b)
    requires EnvSane(out, c.st)
    ensures FreshCells(ws, t, out, decls, end, b)
  {
    forall k | k in decls && k in out && Frozen(ws, b, out[k]) ensures Quiet(ws, t, k, end) {
      assert UndisturbedAt(ws, c, b, out[k]);
    }
  }

  /** Readiness survives calls of function literals. */
  lemma ReadyAfterCalls(ws: set<Site>, log: seq<Entry>, t: Tracker, env: Env, w: set<Key>, rest: set<Key>, a: World, c: World)
    requires Ready(ws, log, t, env, w, rest, a) && Sound(ws, log, c) && Undisturbed(ws, a, c)
    ensures Ready(ws, log, t, env, w, rest, c)
  {
    LiveUndisturbed(ws, Masked(t), env, w + rest, a, c);
    forall k | k in env && k in w ensures !Frozen(ws, c, env[k]) {
      assert UndisturbedAt(ws, a, c, env[k]);
    }
  }

  /** Calls first, then the rest of the run. */
  lemma CallsThenRan(ws: set<Site>, log: seq<Entry>, t: Tracker, env: Env, w: set<Key>, lw: set<Key>, end: Pos, decls: set<Key>, q: Outcome, a: World, c: World, b: World)
    requires Undisturbed(ws, a, c)
    requires Ran(ws, log, t, env, w, lw, end, decls, q, c, b)
    ensures Ran(ws, log, t, env, w, lw, end, decls, q, a, b)
  {
    UndisturbedThenEffect(ws, Masked(t), env, w, lw, end, a, c, b);
  }

  lemma NoRun(ws: set<Site>, log: seq<Entry>, t: Tracker, env: Env, w: set<Key>, lw: set<Key>, end: Pos, decls: set<Key>, a: World)
    requires Sound(ws, log, a)
    ensures Ran(ws, log, t, env, w, lw, end, decls, Outcome(env, a.st, false), a, a)
  {
    EffectNothing(ws, Masked(t), env, w, lw, end, a);
  }

  lemma IdleRan(ws: set<Site>, log: seq<Entry>, t: Tracker, env: Env, end: Pos, normal: bool, a: World, b: World)
    requires Sound(ws, log, b) && Undisturbed(ws, a, b) && EnvSane(env, b.st)
    ensures Ran(ws, log, t, env, {}, {}, end, {}, Outcome(env, b.st, normal), a, b)
  {
    UndisturbedNothing(ws, b);
    EffectNothing(ws, Masked(t), env, {}, {}, end, b);
    UndisturbedThenEffect(ws, Masked(t), env, {}, {}, end, a, b, b);
  }

  /** What is left to run is ready once the first node has run. */
  lemma ReadyAfterHead(ws: set<Site>, log: seq<Entry>, ns: Nodes, t: Tracker, lo: Pos, hi: Pos, env: Env, rest: set<Key>, o: Outcome, a: World, c: World)
    requires ns.Cons? && RunnableIn(ws, log, ns, t, lo, hi, env.Keys) && !t.top.frame.kind.CasesK?
    requires Ready(ws, log, t, env, WritesIn(ns), rest, a)
    requires Ran(ws, log, t, env, Writes(ns.head), LitWrites(ns.head), ns.head.end, Declared(ns.head), o, a, c) && o.normal
    requires Settled(ws, Walk(ws, ns.head, t).t, o, WritesIn(ns.tail) + rest)
    ensures Ready(ws, log, Walk(ws, ns.head, t).t, o.env, WritesIn(ns.tail), rest, c)
    ensures o.env.Keys == env.Keys + Declared(ns.head) && EnvSane(o.env, c.st)
  {
    HeadRunnable(ws, log, ns, t, lo, hi, env.Keys);
    MaskedIsSame(Walk(ws, ns.head, t).t);
    UnfrozenAfter(ws, Masked(t), env, Writes(ns.head), LitWrites(ns.head), ns.head.end, a, c, o.env, Declared(ns.head), ns.tail, hi);
  }

  lemma HeadReady(ws: set<Site>, log: seq<Entry>, ns: Nodes, t: Tracker, env: Env, rest: set<Key>, a: World)
    requires ns.Cons? && Ready(ws, log, t, env, WritesIn(ns), rest, a)
    ensures Ready(ws, log, t, env, Writes(ns.head), WritesIn(ns.tail) + rest, a)
  {
    assert Writes(ns.head) + (WritesIn(ns.tail) + rest) == WritesIn(ns) + rest;
  }

  lemma IdleSettled(ws: set<Site>, log: seq<Entry>, t: Tracker, lo: Pos, hi: Pos, env: Env, rest: set<Key>, b: World)
    requires Ready(ws, log, t, env, {}, rest, b) && RunnableIn(ws, log, Nil, t, lo, hi, env.Keys)
    ensures EnvSane(env, b.st)
    ensures t.top.frame.fallthroughWrites == {} ==> Live(ws, t, env, b.st, rest)
  {
    if t.top.frame.fallthroughWrites == {} {
      MaskedIsSame(t);
    }
  }

  // ----- calls and assignments

  function InnerStart(n: Node): Pos
    requires !n.Scope?
  {
    if n.Call? && n.registrar.Some? then n.pos + 1 else n.pos
  }

  /** The expressions of a call or assignment can be run where it stands. */
  lemma InnerRunnable(ws: set<Site>, log: seq<Entry>, n: Node, t: Tracker, avail: set<Key>)
    requires !n.Scope? && Runnable(ws, log, n, t, avail)
    ensures RunnableIn(ws, log, n.inner, t, InnerStart(n), n.end, avail) && InSequence(t.top.frame.kind, n.inner)
    ensures DeclaredIn(n.inner) == {} && t.top.frame.fallthroughWrites == {} && Masked(t) == t
    ensures After(n.inner, InnerStart(n)) <= n.end && n.pos <= InnerStart(n)
    ensures WritesIn(n.inner) <= Writes(n) && LitWritesIn(n.inner) <= LitWrites(n) && LitWrites(n) <= Writes(n)
    ensures Grew(t, WalkIn(ws, n.inner, t).t, WritesIn(n.inner))
    ensures Sane(ws, WalkIn(ws, n.inner, t).t.top, avail)
  {
    var v := WalkIn(ws, n.inner, t);
    var own := if n.Assign? then Hazards(ws, t, n.pos, n.targets)
               else if n.registrar.Some? then [Registration(n.pos, n.registrar.value, Lookup(ws, t, n.registrar.value))] else [];
    assert Walk(ws, n, t).log == own + v.log;
    AllRegistrationsSplit(own, v.log);
    forall e | e in v.log ensures e in log {
      assert e in Walk(ws, n, t).log;
    }
    ExpressionsFit(t.top.frame.kind, n.inner);
    ExpressionsDeclareNothing(n.inner);
    ExpressionsAreHeaderNodes(n.inner);
    AfterIsAhead(n.inner, InnerStart(n), n.end, avail);
    LitWritesAreWrites(n);
    NothingFellThrough(ws, t, avail);
    WalkInKeeps(ws, n.inner, t, InnerStart(n), n.end, avail);
    assert avail + DeclaredIn(n.inner) == avail;
  }

  /** A node whose expressions stopped. */
  lemma InnerStopped(ws: set<Site>, log: seq<Entry>, n: Node, t: Tracker, env: Env, envo: Env, o: Outcome, a: World, c: World)
    requires !n.Scope? && Runnable(ws, log, n, t, env.Keys)
    requires Ran(ws, log, t, env, WritesIn(n.inner), LitWritesIn(n.inner), After(n.inner, InnerStart(n)), DeclaredIn(n.inner), o, a, c)
    ensures Ran(ws, log, t, env, Writes(n), LitWrites(n), n.end, Declared(n), Outcome(envo, o.st, false), a, c)
  {
    InnerRunnable(ws, log, n, t, env.Keys);
    EffectLater(ws, Masked(t), env, Writes(n), LitWrites(n), n.end, WritesIn(n.inner), LitWritesIn(n.inner), After(n.inner, InnerStart(n)), a, c);
  }

  lemma SameCells(ws: set<Site>, a: World, b: World, l: nat)
    requires a.st.cells == b.st.cells && a.st.pool == b.st.pool && a.snaps == b.snaps && |a.snaps| == |a.st.pool|
    ensures PoolWrites(a.st, l) ==> PoolWrites(b.st, l)
    ensures Frozen(ws, a, l) ==> Frozen(ws, b, l)
  {
    assert Extends(a, b);
    if l < |a.st.cells| {
      ExtendsKeeps(a, b, map[], l);
    }
    if Frozen(ws, a, l) {
      FrozenStays(ws, a, b, l);
    }
  }

  /** Recording what a registration was handed. */
  lemma SeenSound(ws: set<Site>, log: seq<Entry>, a: World, o: Observation)
    requires Sound(ws, log, a) && Explained(log, o)
    ensures var b := World(a.st.(seen := a.st.seen + [o]), a.snaps);
            Sound(ws, log, b) && Undisturbed(ws, a, b)
  {
    var b := World(a.st.(seen := a.st.seen + [o]), a.snaps);
    forall l | 0 <= l < |a.st.cells| ensures UndisturbedAt(ws, a, b, l) {
      SameCells(ws, b, a, l);
    }
    forall i | 0 <= i < |b.snaps| ensures ClosureLive(ws, log, b.st.pool[i], b.snaps[i], b.st) {
      assert ClosureLive(ws, log, a.st.pool[i], a.snaps[i], a.st);
      LiveUndisturbed(ws, BodyStart(a.st.pool[i], a.snaps[i]), a.st.pool[i].env, {}, a, b);
    }
  }

  /** What a registration is handed is what the analysis reads there. */
  lemma RegistrationExplained(ws: set<Site>, log: seq<Entry>, n: Node, t: Tracker, env: Env, st: State, rest: set<Key>)
    requires n.Call? && n.registrar.Some? && Runnable(ws, log, n, t, env.Keys)
    requires Live(ws, if AreLiterals(n.inner) then t else WalkIn(ws, n.inner, t).t, env, st, rest)
    ensures Explained(log, Observation(n.pos, n.registrar.value, Read(env, st, n.registrar.value)))
  {
    var k, w := n.registrar.value, WalkIn(ws, n.inner, t).t;
    InnerRunnable(ws, log, n, t, env.Keys);
    if AreLiterals(n.inner) {
      assert ClaimHolds(ws, t, env, st, k);
    } else {
      UnwrittenKeepsBinding(ws, t, w, WritesIn(n.inner), k);
      assert ClaimHolds(ws, w, env, st, k);
    }
    var e := Registration(n.pos, k, Lookup(ws, t, k));
    assert e in Walk(ws, n, t).log;
    assert e in log;
  }

  lemma CallRan(ws: set<Site>, log: seq<Entry>, n: Node, t: Tracker, env: Env, rest: set<Key>, a: World, c: World, b: World)
    requires n.Call? && Runnable(ws, log, n, t, env.Keys)
    requires Effect(ws, Masked(t), env, WritesIn(n.inner), LitWritesIn(n.inner), After(n.inner, InnerStart(n)), a, c)
    requires Live(ws, WalkIn(ws, n.inner, t).t, env, c.st, rest)
    requires Undisturbed(ws, c, b) && Sound(ws, log, b)
    ensures Ran(ws, log, t, env, Writes(n), LitWrites(n), n.end, Declared(n), Outcome(env, b.st, true), a, b)
    ensures Live(ws, Walk(ws, n, t).t, env, b.st, rest)
  {
    InnerRunnable(ws, log, n, t, env.Keys);
    LiveUndisturbed(ws, WalkIn(ws, n.inner, t).t, env, rest, c, b);
    EffectLater(ws, Masked(t), env, Writes(n), LitWrites(n), n.end, WritesIn(n.inner), LitWritesIn(n.inner), After(n.inner, InnerStart(n)), a, c);
    EffectThenUndisturbed(ws, Masked(t), env, Writes(n), LitWrites(n), n.end, a, c, b);
  }
}
