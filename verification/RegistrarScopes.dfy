/** The steps of running a scope: its header, its body, and leaving it. */
module RegistrarScopes {
  import opened Wrappers
  import opened RegistrarSyntax
  import opened RegistrarTracker
  import opened RegistrarStructure
  import opened RegistrarInvariants
  import opened RegistrarNotes
  import opened RegistrarSemantics
  import opened RegistrarWorld
  import opened RegistrarSteps
  import opened RegistrarClaims
  import opened RegistrarAssign
  import opened RegistrarSoundness
  import opened RegistrarReady

  // ----- lists of one

  lemma WalkSingle(ws: set<Site>, n: Node, t: Tracker)
    ensures WalkIn(ws, Cons(n, Nil), t) == Walk(ws, n, t)
  {
    var w := Walk(ws, n, t);
    assert WalkIn(ws, Nil, w.t) == Walked(w.t, []);
    assert w.log + [] == w.log;
  }

  lemma SinglePlaced(ws: set<Site>, ns: Nodes, t: Tracker, lo: Pos, hi: Pos, avail: set<Key>)
    requires ns.Cons? && PlacedIn(ws, ns, t, lo, hi, avail) && Placed(ws, ns.head, t, avail)
    ensures PlacedIn(ws, Cons(ns.head, Nil), t, lo, hi, avail) && ns.head.end <= hi
  {
    var one := Cons(ns.head, Nil);
    hide WellFormed, Sane, Walk, WalkIn, Writes, AllRegistrations;
    assert WellFormedIn(Nil, ns.head.end, hi, avail + Declared(ns.head));
    assert WellFormedIn(one, lo, hi, avail);
    WalkSingle(ws, ns.head, t);
    assert SitesIn(one) == Sites(ns.head) + {};
    assert FitIn(t.top.frame.kind, Nil) && FitIn(t.top.frame.kind, one);
    assert DeclaredIn(one) == Declared(ns.head) + {};
  }

  lemma SingleRunnable(ws: set<Site>, log: seq<Entry>, ns: Nodes, t: Tracker, lo: Pos, hi: Pos, avail: set<Key>)
    requires ns.Cons? && RunnableIn(ws, log, ns, t, lo, hi, avail)
    ensures var one := Cons(ns.head, Nil);
            && RunnableIn(ws, log, one, t, lo, hi, avail) && After(one, lo) == ns.head.end <= hi
            && WritesIn(one) == Writes(ns.head) && LitWritesIn(one) == LitWrites(ns.head) && DeclaredIn(one) == Declared(ns.head)
            && LitWrites(ns.head) <= Writes(ns.head) && WalkIn(ws, one, t).t == Walk(ws, ns.head, t).t
  {
    hide WellFormed, WellFormedIn, Sane, Walk, WalkIn, Sites, Writes;
    var one := Cons(ns.head, Nil);
    HeadRunnable(ws, log, ns, t, lo, hi, avail);
    hide WellFormed, Sane, Walk, WalkIn, Writes, PlacedIn, Placed, LitWrites, Sites, WellFormedIn;
    WalkSingle(ws, ns.head, t);
    SinglePlaced(ws, ns, t, lo, hi, avail);
    LitWritesAreWrites(ns.head);
    assert SitesIn(one) == Sites(ns.head) + {};
    assert WritesIn(one) == Writes(ns.head) + {};
    assert LitWritesIn(one) == LitWrites(ns.head) + {};
    assert DeclaredIn(one) == Declared(ns.head) + {};
    assert After(one, lo) == ns.head.end;
    assert AreScopes(Nil) && AreHeaderNodes(Nil);
    assert AreScopes(ns) ==> AreScopes(one);
    assert AreHeaderNodes(ns) ==> AreHeaderNodes(one);
    assert forall e <- WalkIn(ws, one, t).log :: e in log;
  }

  // ----- the header

  /** The header of a scope is ready when the scope is. */
  lemma HeaderReady(ws: set<Site>, log: seq<Entry>, n: Node, t: Tracker, env: Env, rest: set<Key>, a: World)
    requires n.Scope? && !n.kind.LitK? && Runnable(ws, log, n, t, env.Keys)
    requires Ready(ws, log, t, env, Writes(n), rest, a)
    ensures var e := Enter(t, n);
            && RunnableIn(ws, log, n.header, e, n.pos, n.end, env.Keys) && InSequence(n.kind, n.header)
            && e.top.frame.kind == n.kind && e.top.frame.fallthroughWrites == {}
            && Ready(ws, log, e, env, WritesIn(n.header), WritesIn(n.body) + rest, a)
  {
    var e := Enter(t, n);
    HeaderRunnable(ws, log, n, t, env.Keys);
    assert WellFormed(n, env.Keys) && !n.kind.RootK?;
    hide WellFormed, WellFormedIn, Walk, WalkIn, Sites, SitesIn, Writes, WritesIn, Sane, PlacedIn, Placed, Masked, Sound, Live, RunnableIn,
         Runnable;
    LiveEnter(ws, n, t, env, a.st, Writes(n) + rest);
    ScopeWrites(n);
    assert WritesIn(n.header) + (WritesIn(n.body) + rest) == Writes(n) + rest;
  }

  lemma HeaderRunnable(ws: set<Site>, log: seq<Entry>, n: Node, t: Tracker, avail: set<Key>)
    requires n.Scope? && !n.kind.LitK? && Runnable(ws, log, n, t, avail)
    ensures var e := Enter(t, n);
            && RunnableIn(ws, log, n.header, e, n.pos, n.end, avail) && InSequence(n.kind, n.header)
            && e.top.frame.kind == n.kind && e.top.frame.fallthroughWrites == {} && Masked(e) == e
  {
    hide Walk, WalkIn, WellShaped, Sane, Writes, WritesIn, Sites, SitesIn, Lookup, AreHeaderNodes, PlacedIn, Tracks;
    var e := Enter(t, n);
    ScopeSteps(ws, n, t, avail);
    MaskedIsSame(e);
    HeaderLogged(ws, n, t);
    HeadersAreHeaderNodes(n);
  }

  lemma HeaderLogged(ws: set<Site>, n: Node, t: Tracker)
    requires n.Scope?
    ensures forall e <- WalkIn(ws, n.header, Enter(t, n)).log :: e in Walk(ws, n, t).log
  {
  }

  lemma HeadersAreHeaderNodes(n: Node)
    requires n.Scope? && WellShaped(n)
    ensures AreHeaderNodes(n.header)
  {
    if !n.kind.BlockK? && !n.kind.ClauseK? && !n.kind.CasesK? && !n.kind.SelectK? && !n.kind.LitK? {
      ExpressionsAreHeaderNodes(n.header);
    }
  }

  // ----- the body

  lemma BodiesAreScopes(n: Node)
    requires n.Scope? && WellShaped(n) && IsHeader(n.kind)
    ensures AreScopes(n.body)
  {
  }

  /** Where a scope's header ends, nothing fell through into its body. */
  lemma BodyStarts(ws: set<Site>, n: Node, t: Tracker, avail: set<Key>)
    requires n.Scope? && Placed(ws, n, t, avail)
    ensures var u := HeaderWalked(ws, n, t);
            u.top.frame.kind == n.kind && u.top.frame.fallthroughWrites == {} && Masked(u) == u
            && Outline(u.top) == Outline(Enter(t, n).top)
  {
    var u := HeaderWalked(ws, n, t);
    ScopeSteps(ws, n, t, avail);
    assert n.kind.CasesK? ==> n.header.Nil?;
    hide WellFormed, Walk, Sites, Fits, Writes, WellFormedIn;
    assert Blank(u.top.frame) == Blank(Enter(t, n).top.frame);
    assert n.kind.CasesK? ==> u == Enter(t, n);
    assert FrameSane(u.top.frame, InnerScope(n, avail));
    hide Sane, WalkIn;
    MaskedIsSame(u);
  }

  /** The body of a scope can be run from where its header's walk ends. */
  lemma BodyRunnable(ws: set<Site>, log: seq<Entry>, n: Node, t: Tracker, avail: set<Key>)
    requires n.Scope? && !n.kind.LitK? && Runnable(ws, log, n, t, avail)
    ensures var u := HeaderWalked(ws, n, t);
            && RunnableIn(ws, log, n.body, u, After(n.header, n.pos), n.end, InnerScope(n, avail))
            && u.top.frame.kind == n.kind && u.top.frame.fallthroughWrites == {} && Masked(u) == u
            && Outline(u.top) == Outline(Enter(t, n).top)
  {
    var u := HeaderWalked(ws, n, t);
    BodyStarts(ws, n, t, avail);
    ScopeSteps(ws, n, t, avail);
    assert Walk(ws, n, t).log == WalkIn(ws, n.header, Enter(t, n)).log + WalkIn(ws, n.body, u).log;
    forall x | x in WalkIn(ws, n.body, u).log ensures x in log {
      assert x in Walk(ws, n, t).log;
    }
    assert SitesIn(n.body) <= Sites(n);
    assert WellFormed(n, avail);
    if IsHeader(n.kind) {
      BodiesAreScopes(n);
    }
    hide Walk, WalkIn, WellFormed, Sane, Sites, Writes, LitWrites, PlacedIn, Placed, Grew, HeaderWalked, Masked, Runnable;
  }

  /** The body of a scope is ready once its header has run. */
  lemma BodyReady(ws: set<Site>, log: seq<Entry>, n: Node, t: Tracker, env: Env, rest: set<Key>, o: Outcome, a: World, h: World)
    requires n.Scope? && !n.kind.LitK? && Runnable(ws, log, n, t, env.Keys)
    requires Ready(ws, log, t, env, Writes(n), rest, a)
    requires Ran(ws, log, Enter(t, n), env, WritesIn(n.header), LitWritesIn(n.header), After(n.header, n.pos), DeclaredIn(n.header), o, a, h) && o.normal
    requires Settled(ws, HeaderWalked(ws, n, t), o, WritesIn(n.body) + rest)
    ensures o.env.Keys == env.Keys + DeclaredIn(n.header)
    ensures !n.kind.RangeK? ==> o.env.Keys == InnerScope(n, env.Keys)
    ensures Ready(ws, log, HeaderWalked(ws, n, t), o.env, WritesIn(n.body), rest, h)
  {
    BodyRunnable(ws, log, n, t, env.Keys);
    assert Placed(ws, n, t, env.Keys) && WellFormed(n, env.Keys) && Sites(n) <= ws;
    assert EnvSane(env, a.st);
    hide Sound, Live, Effect, Walk, WalkIn, PlacedIn, Placed, Runnable, RunnableIn, Sites, WellFormed, Writes, LitWrites, Masked;
    UnfrozenBody(ws, n, t, env, o, a, h);
  }

  lemma UnfrozenBody(ws: set<Site>, n: Node, t: Tracker, env: Env, o: Outcome, a: World, h: World)
    requires n.Scope? && WellFormed(n, env.Keys) && Sites(n) <= ws && !n.kind.LitK?
    requires Unfrozen(ws, a, env, Writes(n)) && EnvSane(env, a.st)
    requires Effect(ws, Masked(Enter(t, n)), env, WritesIn(n.header), LitWritesIn(n.header), After(n.header, n.pos), a, h)
    requires EnvGrew(env, o.env, DeclaredIn(n.header), |a.st.cells|)
    requires FreshCells(ws, Masked(Enter(t, n)), o.env, DeclaredIn(n.header), After(n.header, n.pos), h)
    ensures Unfrozen(ws, h, o.env, WritesIn(n.body))
  {
    var end := After(n.header, n.pos);
    forall k | k in o.env && k in WritesIn(n.body) ensures !Frozen(ws, h, o.env[k]) {
      ScopeDeclares(n, env.Keys);
      assert k in InnerScope(n, env.Keys);
      WrittenIsNotQuiet(ws, Masked(Enter(t, n)), n.body, end, n.end, InnerScope(n, env.Keys), k);
      if k !in DeclaredIn(n.header) {
        assert k in Writes(n);
        assert EffectAt(ws, Masked(Enter(t, n)), env, WritesIn(n.header), LitWritesIn(n.header), end, a, h, env[k]);
      }
    }
  }

  // ----- leaving

  /** The effect of a header and of the body after it, as one. */
  lemma HeaderThenBody(ws: set<Site>, log: seq<Entry>, n: Node, t: Tracker, env: Env, envh: Env, a: World, h: World, b: World)
    requires n.Scope? && !n.kind.LitK? && Runnable(ws, log, n, t, env.Keys) && EnvSane(env, a.st)
    requires Effect(ws, Enter(t, n), env, WritesIn(n.header), LitWritesIn(n.header), After(n.header, n.pos), a, h)
    requires EnvGrew(env, envh, DeclaredIn(n.header), |a.st.cells|)
    requires Effect(ws, HeaderWalked(ws, n, t), envh, WritesIn(n.body), LitWritesIn(n.body), n.end, h, b)
    ensures Effect(ws, Enter(t, n), env, Writes(n), LitWritesIn(n.header) + LitWritesIn(n.body), n.end, a, b)
  {
    var e, u := Enter(t, n), HeaderWalked(ws, n, t);
    assert Placed(ws, n, t, env.Keys) && WellFormed(n, env.Keys);
    ScopeSteps(ws, n, t, env.Keys);
    LitWritesInAreWrites(n.header);
    AfterIsAhead(n.header, n.pos, n.end, env.Keys);
    StackGrewOutline(e.top, u.top, WritesIn(n.header));
    hide WellFormed, Sane, Sites, Walk, WalkIn, Runnable, Placed, PlacedIn, EffectAt, PoolWrites, Frozen, Quiet, Claims, HeaderWalked,
         Writes, LitWrites, LitWritesIn, Enter, WritesIn;
    forall k
      ensures Quiet(ws, u, k, n.end) ==> Quiet(ws, e, k, n.end)
      ensures Claims(ws, u, k) ==> Claims(ws, e, k) || k in WritesIn(n.header)
    {
      QuietByOutline(ws, e, u, k, n.end);
      if k !in WritesIn(n.header) {
        SameClaims(ws, e, u, WritesIn(n.header), k);
      }
    }
    assert forall l: nat :: l < |a.st.cells| && At(envh, h.st, l) ==> At(env, a.st, l);
    hide At;
    EffectThen(ws, e, u, env, envh, WritesIn(n.header), LitWritesIn(n.header), After(n.header, n.pos),
               WritesIn(n.body), LitWritesIn(n.body), n.end, a, h, b);
    ScopeWrites(n);
  }

  lemma SameClaims(ws: set<Site>, t: Tracker, u: Tracker, w: set<Key>, k: Key)
    requires Grew(t, u, w) && k !in w
    ensures Claims(ws, u, k) == Claims(ws, t, k)
  {
    UnwrittenKeepsBinding(ws, t, u, w, k);
  }

  lemma ScopeWrites(n: Node)
    requires n.Scope?
    ensures WritesIn(n.header) + WritesIn(n.body) == Writes(n)
  {
  }

  /** What a scope's header and body did, as what the scope did. */
  lemma ScopeRan(ws: set<Site>, log: seq<Entry>, n: Node, t: Tracker, env: Env, o: Outcome, normal: bool, a: World, h: World, b: World)
    requires n.Scope? && !n.kind.LitK? && Runnable(ws, log, n, t, env.Keys) && EnvSane(env, a.st)
    requires Ran(ws, log, Enter(t, n), env, WritesIn(n.header), LitWritesIn(n.header), After(n.header, n.pos), DeclaredIn(n.header), o, a, h) && o.normal
    requires Effect(ws, HeaderWalked(ws, n, t), o.env, WritesIn(n.body), LitWritesIn(n.body), n.end, h, b) && Sound(ws, log, b)
    ensures Ran(ws, log, t, env, Writes(n), LitWrites(n), n.end, {}, Outcome(env, b.st, normal), a, b)
  {
    hide WellFormed, WellFormedIn, Sane, Walk, WalkIn, Sites, Writes, WritesIn, Outline, Masked, Claims, Doomed, Live, Sound, DeclaredIn,
         Unfrozen, Allocate, Run, RunIn, At, After;
    MaskedIsSame(Enter(t, n));
    HeaderThenBody(ws, log, n, t, env, o.env, a, h, b);
    assert WellFormed(n, env.Keys);
    assert LitWritesIn(n.header) + LitWritesIn(n.body) <= LitWrites(n);
    hide WellFormed, Sane, Sites, Walk, WalkIn, Runnable, Placed, PlacedIn, EffectAt, Sound, HeaderWalked, Writes, LitWrites, LitWritesIn,
         Enter, WritesIn, Masked;
    ScopeEffect(ws, n, t, env, n.end, a, b);
    assert EnvSane(env, b.st);
  }

  /** A scope whose header stopped. */
  lemma HeaderStopped(ws: set<Site>, log: seq<Entry>, n: Node, t: Tracker, env: Env, o: Outcome, a: World, h: World)
    requires n.Scope? && !n.kind.LitK? && Runnable(ws, log, n, t, env.Keys) && EnvSane(env, a.st)
    requires Ran(ws, log, Enter(t, n), env, WritesIn(n.header), LitWritesIn(n.header), After(n.header, n.pos), DeclaredIn(n.header), o, a, h)
    ensures Ran(ws, log, t, env, Writes(n), LitWrites(n), n.end, {}, Outcome(env, h.st, false), a, h)
  {
    MaskedIsSame(Enter(t, n));
    assert WellFormed(n, env.Keys);
    assert LitWritesIn(n.header) + LitWritesIn(n.body) <= LitWrites(n);
    AfterIsAhead(n.header, n.pos, n.end, env.Keys);
    ScopeWrites(n);
    hide WellFormed, Sane, Sites, Walk, WalkIn, Runnable, Placed, PlacedIn, EffectAt, Sound, HeaderWalked, Writes, LitWrites, LitWritesIn,
         Enter, WritesIn, Masked;
    EffectLater(ws, Enter(t, n), env, Writes(n), LitWritesIn(n.header) + LitWritesIn(n.body), n.end,
                WritesIn(n.header), LitWritesIn(n.header), After(n.header, n.pos), a, h);
    ScopeEffect(ws, n, t, env, n.end, a, h);
  }

  /** Readiness for less. */
  lemma ReadyNarrows(ws: set<Site>, log: seq<Entry>, t: Tracker, env: Env, w: set<Key>, x: set<Key>, a: World)
    requires Ready(ws, log, t, env, w, {}, a) && x <= w
    ensures Ready(ws, log, t, env, x, {}, a)
  {
    LiveNarrows(ws, Masked(t), env, a.st, w + {}, x + {});
  }

  // ----- loops

  /** n is a loop, u where the walk of its header ends, env the variables in scope there. */
  ghost predicate LoopPlaced(ws: set<Site>, log: seq<Entry>, n: Node, u: Tracker, avail: set<Key>) {
    && n.Scope? && IsLoop(n.kind) && WellFormed(n, avail) && Sites(n) <= ws
    && RunnableIn(ws, log, n.body, u, After(n.header, n.pos), n.end, InnerScope(n, avail))
    && Blank(u.top.frame) == Blank(NewFrame(n, map[])) && Masked(u) == u
    && (n.kind.RangeK? ==> Sane(ws, u.top, avail))
  }

  /** The variables at the start of a loop's body, but for those a range clause makes. */
  function LoopScope(n: Node, avail: set<Key>): set<Key>
    requires n.Scope?
  {
    if n.kind.RangeK? then avail else InnerScope(n, avail)
  }

  lemma LoopStarts(ws: set<Site>, log: seq<Entry>, n: Node, t: Tracker, avail: set<Key>)
    requires n.Scope? && IsLoop(n.kind) && Runnable(ws, log, n, t, avail)
    ensures LoopPlaced(ws, log, n, HeaderWalked(ws, n, t), avail)
  {
    BodyRunnable(ws, log, n, t, avail);
    ScopeSteps(ws, n, t, avail);
    PartsFit(n);
    ScopeDeclares(n, avail);
    hide Walk, WalkIn, Sites, Writes, Masked, RunnableIn, WellFormedIn, WellShaped, Grew, Tracks, Placed, AllRegistrations;
    WalkInKeeps(ws, n.header, Enter(t, n), n.pos, n.end, avail);
    if n.kind.RangeK? {
      assert avail + DeclaredIn(n.header) == avail;
    }
  }

  /** What a loop writes of the variables that outlive an iteration is killed in it. */
  lemma LoopKills(ws: set<Site>, log: seq<Entry>, n: Node, u: Tracker, avail: set<Key>, k: Key)
    requires LoopPlaced(ws, log, n, u, avail) && k in LoopScope(n, avail) && k in WritesIn(n.body)
    ensures ReassignedWhileRunning(ws, u.top.frame, k) && KilledWithin(ws, u.top, k) && !Claims(ws, u, k)
  {
    assert k in Writes(n);
    RepeatableKills(ws, n, avail, k);
    assert Sane(ws, u.top, InnerScope(n, avail));
    DoomedIsUnresolved(ws, u, k, InnerScope(n, avail));
  }

  lemma {:induction false} AllocateValues(keys: seq<Key>, values: seq<Value>, env: Env, st: State, want: map<Key, Value>)
    requires |values| == |keys| && forall i | 0 <= i < |keys| :: keys[i] in want && values[i] == want[keys[i]]
    requires EnvSane(env, st)
    ensures var (out, st') := Allocate(keys, values, env, st);
            forall k <- keys :: k in out && k in want && out[k] < |st'.cells| && st'.cells[out[k]].value == want[k]
    decreases |keys|
  {
    if keys != [] {
      var env1, st1 := env[keys[0] := |st.cells|], st.(cells := st.cells + [Cell(keys[0], values[0])]);
      AllocateFacts(keys[1..], values[1..], env1, st1);
      AllocateValues(keys[1..], values[1..], env1, st1, want);
      var (out, st') := Allocate(keys[1..], values[1..], env1, st1);
      assert st'.cells[..|st1.cells|][|st.cells|] == Cell(keys[0], values[0]);
      assert forall k <- keys :: k == keys[0] || k in keys[1..];
    }
  }

  /** A three-clause loop's variables keep their values when copied into new cells. */
  lemma LiveCopies(ws: set<Site>, log: seq<Entry>, t: Tracker, keys: seq<Key>, env: Env, a: World, w: set<Key>)
    requires Sound(ws, log, a) && Live(ws, t, env, a.st, w) && KeySet(keys) <= env.Keys
    ensures var (out, st) := Allocate(keys, Current(keys, env, a.st), env, a.st);
            && Live(ws, t, out, st, w) && EnvGrew(env, out, KeySet(keys), |a.st.cells|)
            && MoreCells(a, st) && Sound(ws, log, World(st, a.snaps))
  {
    hide Lookup, Walk, WellFormed, Sites, Sane, Writes, Doomed;
    var values := Current(keys, env, a.st);
    var (out, st) := Allocate(keys, values, env, a.st);
    var want := map k | k in env :: Read(env, a.st, k);
    assert forall i | 0 <= i < |keys| :: keys[i] in KeySet(keys);
    AllocateFacts(keys, values, env, a.st);
    AllocateValues(keys, values, env, a.st, want);
    MoreCellsKeep(ws, log, a, st);
    MoreCellsExtend(a, st);
    PoolEnvSane(ws, log, a);
    forall k | k in out
      ensures ClaimHolds(ws, t, out, st, k)
      ensures k in w && PoolWrites(st, out[k]) ==> Doomed(ws, t, k)
    {
      MoreCellsPoolWrites(a, st, out[k]);
      assert k in env;
      assert ClaimHolds(ws, t, env, a.st, k);
      if k in KeySet(keys) {
        assert k in keys && want[k] == a.st.cells[env[k]].value;
      }
    }
  }

  /** An iteration starts from the claims the loop keeps. */
  lemma RenewReady(ws: set<Site>, log: seq<Entry>, n: Node, u: Tracker, avail: set<Key>, env: Env, renew: bool, values: seq<Value>, x: World)
    requires LoopPlaced(ws, log, n, u, avail) && env.Keys == LoopScope(n, avail)
    requires Ready(ws, log, u, env, WritesIn(n.body), {}, x)
    ensures var (out, st) := Renew(n, renew, values, env, x.st);
            && Ready(ws, log, u, out, WritesIn(n.body), {}, World(st, x.snaps)) && out.Keys == InnerScope(n, avail)
            && MoreCells(x, st)
            && (forall l: nat :: l < |x.st.cells| && At(out, st, l) ==> At(env, x.st, l))
            && (forall k <- env :: k !in n.declares || n.kind.RangeK? ==> k in out && out[k] == env[k])
  {
    hide WellFormedIn, Sane, Walk, WalkIn, Sites, SitesIn, Writes, WritesIn, LitWrites, LitWritesIn, Lookup, Outline, Masked, Claims,
         Doomed, Live, PlacedIn;
    var (out, st) := Renew(n, renew, values, env, x.st);
    if n.kind.RangeK? {
      forall k | k in n.declares ensures !Claims(ws, u, k) && k !in avail {
        assert k in KeySet(n.declares);
        UnmentionedIsUnclaimed(ws, u, avail, k);
      }
      LiveAllocate(ws, log, u, n.declares, values, env, x, WritesIn(n.body) + {});
    } else if renew {
      assert KeySet(n.declares) == DeclaredIn(n.header);
      LiveCopies(ws, log, u, n.declares, env, x, WritesIn(n.body) + {});
    } else {
      assert MoreCells(x, st);
      return;
    }
    PoolEnvSane(ws, log, x);
    MoreCellsExtend(x, st);
    hide LoopPlaced, Live, Sound, Walk, WalkIn, RunnableIn;
    forall k | k in out && k in WritesIn(n.body) ensures !Frozen(ws, World(st, x.snaps), out[k]) {
      MoreCellsFrozen(ws, x, st, out[k]);
    }
  }

  /** After an iteration the loop is ready for another. */
  lemma LoopAgain(ws: set<Site>, log: seq<Entry>, n: Node, u: Tracker, avail: set<Key>, env: Env, out: Env, next: Env, x: World, y: World, b: World)
    requires LoopPlaced(ws, log, n, u, avail) && next.Keys == LoopScope(n, avail)
    requires Ready(ws, log, u, out, WritesIn(n.body), {}, y) && Sound(ws, log, b)
    requires forall k <- next :: k in out && out[k] == next[k]
    requires Effect(ws, u, out, WritesIn(n.body), LitWritesIn(n.body), n.end, y, b)
    ensures Ready(ws, log, u, next, WritesIn(n.body), {}, b)
  {
    var w := WritesIn(n.body);
    forall k | k in next && k in w
      ensures KilledWithin(ws, u.top, k) && !Claims(ws, u, k)
    {
      LoopKills(ws, log, n, u, avail, k);
    }
    assert Masked(u) == u;
    LitWritesInAreWrites(n.body);
    hide LoopPlaced, Sound, Walk, WalkIn, Claims, WritesIn, LitWritesIn, KilledWithin, Masked;
    assert w + {} == w;
    assert Live(ws, u, next, y.st, w) by {
      forall k | k in next ensures ClaimHolds(ws, u, next, y.st, k) {
        assert ClaimHolds(ws, u, out, y.st, k);
      }
    }
    LiveUnder(ws, u, next, w, u, out, w, LitWritesIn(n.body), n.end, y, b);
    forall k | k in next && k in w ensures !Frozen(ws, b, next[k]) {
      assert EffectAt(ws, u, out, w, LitWritesIn(n.body), n.end, y, b, next[k]);
    }
  }

  /** An iteration, then the others. */
  lemma LoopThen(ws: set<Site>, log: seq<Entry>, u: Tracker, env: Env, out: Env, next: Env, w: set<Key>, lw: set<Key>, end: Pos, x: World, y: World, b: World, c: World)
    requires Sound(ws, log, x) && MoreCells(x, y.st) && y.snaps == x.snaps
    requires forall l: nat :: l < |x.st.cells| && At(out, y.st, l) ==> At(env, x.st, l)
    requires forall k <- next :: k in out && out[k] == next[k]
    requires Effect(ws, u, out, w, lw, end, y, b) && Effect(ws, u, next, w, lw, end, b, c) && lw <= w
    ensures Effect(ws, u, env, w, lw, end, x, c)
  {
    PoolEnvSane(ws, log, x);
    MoreCellsExtend(x, y.st);
    ExtendsTransitive(x, y, b);
    forall l: nat | l < |x.st.cells| ensures EffectAt(ws, u, env, w, lw, end, x, b, l) {
      MoreCellsPoolWrites(x, y.st, l);
      MoreCellsFrozen(ws, x, y.st, l);
      assert EffectAt(ws, u, out, w, lw, end, y, b, l);
    }
    assert forall l: nat :: l < |x.st.cells| && At(next, b.st, l) ==> At(out, y.st, l);
    EffectThen(ws, u, u, env, next, w, lw, end, w, lw, end, x, b, c);
    assert w + w == w && lw + lw == lw;
  }

  /** What is killed in the parts of a loop before one is killed in it. */
  lemma PartAfter(ws: set<Site>, log: seq<Entry>, parts: Nodes, u: Tracker, lo: Pos, hi: Pos, env: Env, x: World)
    requires parts.Cons? && RunnableIn(ws, log, parts, u, lo, hi, env.Keys) && IsLoop(u.top.frame.kind)
    requires Ready(ws, log, u, env, WritesIn(parts), {}, x)
    requires forall k <- env :: k in WritesIn(parts) ==> ReassignedWhileRunning(ws, u.top.frame, k)
    ensures var v := Walk(ws, parts.head, u).t;
            && Masked(u) == u && Masked(v) == v
            && Ready(ws, log, v, env, WritesIn(parts.tail), {}, x)
            && (forall k <- env :: k in WritesIn(parts.tail) ==> ReassignedWhileRunning(ws, v.top.frame, k))
            && (forall k :: Outline(u.top) == Outline(v.top) && (Claims(ws, v, k) ==> Claims(ws, u, k) || k !in env))
  {
    hide WellFormed, WellFormedIn, Sane, Walk, WalkIn, Sites, Writes;
    var v := Walk(ws, parts.head, u).t;
    HeadRunnable(ws, log, parts, u, lo, hi, env.Keys);
    HeadFacts(ws, log, parts, u, lo, hi, env.Keys);
    WalkTracks(ws, parts.head, u);
    assert Blank(u.top.frame) == Blank(v.top.frame);
    assert forall k :: ReassignedWhileRunning(ws, u.top.frame, k) == ReassignedWhileRunning(ws, v.top.frame, k);
    assert Sane(ws, v.top, env.Keys + Declared(parts.head));
    hide RunnableIn, Walk, WalkIn, Sane, Sound, ReassignedWhileRunning, Runnable, Writes, Masked;
    forall k | k in env
      ensures Claims(ws, v, k) ==> Lookup(ws, v, k) == Lookup(ws, u, k)
      ensures Doomed(ws, u, k) ==> Doomed(ws, v, k)
    {
      if k in Writes(parts.head) {
        assert ReassignedWhileRunning(ws, v.top.frame, k);
        DoomedIsUnresolved(ws, v, k, env.Keys + Declared(parts.head));
      } else {
        UnwrittenKeepsBinding(ws, u, v, Writes(parts.head), k);
      }
      if Doomed(ws, u, k) {
        DoomedGrows(ws, u, v, Writes(parts.head), k);
      }
    }
    LiveWeakens(ws, u, v, env, x.st, WritesIn(parts) + {}, WritesIn(parts.tail) + {});
  }

  /** What a later part of a loop does, seen from before the earlier ones. */
  lemma PartEffect(ws: set<Site>, parts: Nodes, u: Tracker, v: Tracker, env: Env, hi: Pos, x: World, b: World)
    requires parts.Cons? && Outline(u.top) == Outline(v.top)
    requires forall k <- env :: Claims(ws, v, k) ==> Claims(ws, u, k)
    requires Effect(ws, v, env, WritesIn(parts.tail), LitWritesIn(parts.tail), hi, x, b)
    ensures Effect(ws, u, env, WritesIn(parts), LitWritesIn(parts), hi, x, b)
  {
    forall k | k in env ensures Quiet(ws, v, k, hi) == Quiet(ws, u, k, hi) {
      QuietByOutline(ws, u, v, k, hi);
    }
    EffectWidens(ws, u, v, env, env, WritesIn(parts), LitWritesIn(parts), hi, WritesIn(parts.tail), LitWritesIn(parts.tail), hi, x, b);
  }

  // ----- alternatives

  /** Alternatives: blocks or clauses, but for an else-if that comes last. */
  predicate AreBranches(ns: Nodes) {
    ns.Cons? ==>
      && ns.head.Scope? && !ns.head.kind.LitK?
      && (ns.tail.Cons? ==> ns.head.kind.BlockK? || ns.head.kind.ClauseK?)
      && AreBranches(ns.tail)
  }

  lemma {:induction false} ClausesAreBranches(ns: Nodes)
    requires AreClauses(ns)
    ensures AreBranches(ns)
    decreases ns
  {
    if ns.Cons? {
      ClausesAreBranches(ns.tail);
    }
  }

  lemma BodiesAreBranches(n: Node)
    requires n.Scope? && WellShaped(n) && IsBranching(n.kind)
    ensures AreBranches(n.body) && DeclaredIn(n.body) == {}
  {
    PartsFit(n);
    if n.kind.CasesK? {
      ClausesAreBranches(n.body);
    } else if n.body.tail.Cons? {
      assert AreBranches(n.body.tail.tail);
    }
  }

  lemma LiveMasked(ws: set<Site>, t: Tracker, env: Env, st: State, w: set<Key>)
    requires Live(ws, t, env, st, w)
    ensures Live(ws, Masked(t), env, st, w)
  {
    forall k | k in env
      ensures Claims(ws, Masked(t), k) ==> Lookup(ws, Masked(t), k) == Lookup(ws, t, k)
      ensures Doomed(ws, t, k) ==> Doomed(ws, Masked(t), k)
    {
      MaskedLookup(ws, t, k);
      MaskedDoomed(ws, t, k);
    }
    LiveWeakens(ws, t, Masked(t), env, st, w, w);
  }

  /** The tracker whose claims hold while alternatives are skipped, or once one may have fallen through. */
  function Seen(u: Tracker, skip: nat): Tracker {
    if skip > 0 then u else Masked(u)
  }

  lemma SkippedKey(ws: set<Site>, n: Node, u: Tracker, avail: set<Key>, k: Key)
    requires n.Scope? && (n.kind.BlockK? || n.kind.ClauseK?)
    requires IsBranching(u.top.frame.kind) && Placed(ws, n, u, avail) && k in avail
    ensures var v := Walk(ws, n, u).t;
            && (Claims(ws, v, k) ==> Lookup(ws, v, k) == Lookup(ws, u, k))
            && (Claims(ws, Masked(v), k) ==> Claims(ws, v, k))
            && (Doomed(ws, u, k) ==> Doomed(ws, v, k))
  {
    var v := Walk(ws, n, u).t;
    ScopeSteps(ws, n, u, avail);
    if Claims(ws, v, k) {
      SkippedClaims(ws, n, u, avail, k);
    }
    MaskedLookup(ws, v, k);
    if Doomed(ws, u, k) {
      DoomedGrows(ws, u, v, Writes(n), k);
    }
  }

  /** Skipping an alternative that comes before others claims nothing more. */
  lemma BranchSkipped(ws: set<Site>, log: seq<Entry>, alts: Nodes, skip: nat, u: Tracker, lo: Pos, hi: Pos, env: Env, x: World)
    requires alts.Cons? && alts.tail.Cons? && AreBranches(alts) && skip > 0
    requires RunnableIn(ws, log, alts, u, lo, hi, env.Keys) && IsBranching(u.top.frame.kind)
    requires Sound(ws, log, x) && Unfrozen(ws, x, env, WritesIn(alts)) && Live(ws, u, env, x.st, WritesIn(alts))
    ensures var v := Walk(ws, alts.head, u).t;
            && Live(ws, v, env, x.st, WritesIn(alts.tail)) && Ready(ws, log, v, env, WritesIn(alts.tail), {}, x)
            && (forall k <- env :: Claims(ws, Seen(v, skip - 1), k) ==> Claims(ws, u, k))
            && Outline(Seen(v, skip - 1).top) == Outline(u.top)
  {
    hide WellFormed, WellFormedIn, Sane, Walk, WalkIn, Sites, SitesIn, Writes, Lookup;
    var v := Walk(ws, alts.head, u).t;
    hide Walk, WalkIn, Sane, Sound, Placed, PlacedIn, WellFormed, Sites, SitesIn, Writes, Masked, Doomed, Lookup, Live;
    HeadRunnable(ws, log, alts, u, lo, hi, env.Keys);
    MaskedOutline(v);
    hide RunnableIn, Runnable;
    forall k | k in env
      ensures Claims(ws, v, k) ==> Lookup(ws, v, k) == Lookup(ws, u, k)
      ensures Claims(ws, Masked(v), k) ==> Claims(ws, v, k)
      ensures Doomed(ws, u, k) ==> Doomed(ws, v, k)
    {
      SkippedKey(ws, alts.head, u, env.Keys, k);
    }
    SkippedReady(ws, log, u, v, env, WritesIn(alts), WritesIn(alts.tail), x);
  }

  lemma SkippedReady(ws: set<Site>, log: seq<Entry>, u: Tracker, v: Tracker, env: Env, w: set<Key>, x: set<Key>, a: World)
    requires Sound(ws, log, a) && Unfrozen(ws, a, env, w) && Live(ws, u, env, a.st, w) && x <= w
    requires forall k <- env :: Claims(ws, v, k) ==> Lookup(ws, v, k) == Lookup(ws, u, k)
    requires forall k <- env :: Doomed(ws, u, k) ==> Doomed(ws, v, k)
    ensures Live(ws, v, env, a.st, x) && Ready(ws, log, v, env, x, {}, a)
  {
    hide Sound, Live, Masked, Doomed, Lookup;
    LiveWeakens(ws, u, v, env, a.st, w, x);
    LiveMasked(ws, v, env, a.st, x);
    assert x + {} == x;
  }

  lemma MaskedOutline(t: Tracker)
    ensures Outline(Masked(t).top) == Outline(t.top)
  {
  }

  /** The clause after one that fell through starts from claims that hold. */
  lemma BranchFell(ws: set<Site>, log: seq<Entry>, alts: Nodes, u: Tracker, lo: Pos, hi: Pos, env: Env, x: World, c: World)
    requires alts.Cons? && alts.tail.Cons? && AreBranches(alts) && DeclaredIn(alts) == {}
    requires alts.head.Scope? && FallsThrough(NewFrame(alts.head, map[]))
    requires RunnableIn(ws, log, alts, u, lo, hi, env.Keys) && IsBranching(u.top.frame.kind)
    requires Ready(ws, log, u, env, WritesIn(alts), {}, x) && Sound(ws, log, c)
    requires Effect(ws, Masked(u), env, Writes(alts.head), LitWrites(alts.head), alts.head.end, x, c)
    ensures var v := Walk(ws, alts.head, u).t;
            && Ready(ws, log, v, env, WritesIn(alts.tail), {}, c)
            && (forall k <- env :: Claims(ws, Masked(v), k) ==> Claims(ws, Masked(u), k))
            && Outline(Masked(v).top) == Outline(Masked(u).top)
  {
    hide WellFormed, WellFormedIn, Sane, Walk, WalkIn, Sites, SitesIn;
    var v, w := Walk(ws, alts.head, u).t, WritesIn(alts.tail);
    HeadRunnable(ws, log, alts, u, lo, hi, env.Keys);
    MaskedOutline(u);
    MaskedOutline(v);
    LitWritesAreWrites(alts.head);
    assert Placed(ws, alts.head, u, env.Keys);
    assert WellFormedIn(alts.tail, alts.head.end, hi, env.Keys + Declared(alts.head)) && SitesIn(alts.tail) <= ws;
    assert env.Keys + Declared(alts.head) == env.Keys;
    BranchUnfrozen(ws, alts, u, hi, env, x, c);
    forall k | k in env
      ensures Claims(ws, Masked(v), k) ==> k !in Writes(alts.head) && Lookup(ws, Masked(v), k) == Lookup(ws, Masked(u), k)
      ensures Doomed(ws, Masked(u), k) ==> Doomed(ws, Masked(v), k)
      ensures k in LitWrites(alts.head) ==> Doomed(ws, Masked(v), k)
    {
      FellKey(ws, alts.head, u, env.Keys, k);
    }
    hide RunnableIn, Walk, WalkIn, Sane, Sound, Placed, Claims, Writes, LitWrites, Masked, WritesIn, Doomed, Lookup;
    BranchLive(ws, Masked(u), Masked(v), Writes(alts.head), LitWrites(alts.head), WritesIn(alts), w, alts.head.end, env, x, c);
    assert w + {} == w;
  }

  lemma FellKey(ws: set<Site>, n: Node, u: Tracker, avail: set<Key>, k: Key)
    requires n.Scope? && FallsThrough(NewFrame(n, map[])) && IsBranching(u.top.frame.kind) && Placed(ws, n, u, avail) && k in avail
    requires NothingLost(Walk(ws, n, u).log)
    ensures var v := Walk(ws, n, u).t;
            && (Claims(ws, Masked(v), k) ==> k !in Writes(n) && Lookup(ws, Masked(v), k) == Lookup(ws, Masked(u), k))
            && (Doomed(ws, Masked(u), k) ==> Doomed(ws, Masked(v), k))
            && (k in LitWrites(n) ==> Doomed(ws, Masked(v), k))
  {
    var v := Walk(ws, n, u).t;
    ScopeSteps(ws, n, u, avail);
    MaskedDoomed(ws, u, k);
    MaskedDoomed(ws, v, k);
    if Claims(ws, Masked(v), k) {
      FellThroughClaims(ws, n, u, avail, k);
    }
    if Doomed(ws, u, k) {
      DoomedGrows(ws, u, v, Writes(n), k);
    }
    if k in LitWrites(n) {
      WalkCaptures(ws, n, u, avail, k);
    }
  }

  lemma BranchUnfrozen(ws: set<Site>, alts: Nodes, u: Tracker, hi: Pos, env: Env, x: World, c: World)
    requires alts.Cons? && WellFormedIn(alts.tail, alts.head.end, hi, env.Keys) && SitesIn(alts.tail) <= ws
    requires EnvSane(env, x.st) && Unfrozen(ws, x, env, WritesIn(alts))
    requires Effect(ws, Masked(u), env, Writes(alts.head), LitWrites(alts.head), alts.head.end, x, c)
    ensures Unfrozen(ws, c, env, WritesIn(alts.tail))
  {
    UnfrozenAfter(ws, Masked(u), env, Writes(alts.head), LitWrites(alts.head), alts.head.end, x, c, env, {}, alts.tail, hi);
  }

  lemma BranchLive(ws: set<Site>, t: Tracker, r: Tracker, w: set<Key>, lw: set<Key>, before: set<Key>, after: set<Key>, end: Pos, env: Env, x: World, c: World)
    requires Live(ws, t, env, x.st, before + {}) && after <= before && lw <= w
    requires Effect(ws, t, env, w, lw, end, x, c)
    requires forall k <- env :: Claims(ws, r, k) ==> k !in w && Lookup(ws, r, k) == Lookup(ws, t, k)
    requires forall k <- env :: Doomed(ws, t, k) ==> Doomed(ws, r, k)
    requires forall k <- env :: k in lw ==> Doomed(ws, r, k)
    ensures Live(ws, r, env, c.st, after)
  {
    LiveWeakens(ws, t, r, env, x.st, before + {}, after);
    hide Doomed, Lookup;
    LiveUnder(ws, r, env, after, t, env, w, lw, end, x, c);
  }

  /** A clause that fell through, then the ones after it. */
  lemma BranchThen(ws: set<Site>, alts: Nodes, u: Tracker, v: Tracker, hi: Pos, env: Env, x: World, c: World, b: World)
    requires alts.Cons? && alts.head.end <= hi && LitWrites(alts.head) <= Writes(alts.head)
    requires Effect(ws, u, env, Writes(alts.head), LitWrites(alts.head), alts.head.end, x, c)
    requires Effect(ws, v, env, WritesIn(alts.tail), LitWritesIn(alts.tail), hi, c, b)
    requires Outline(u.top) == Outline(v.top)
    requires forall k <- env :: Claims(ws, v, k) ==> Claims(ws, u, k)
    ensures Effect(ws, u, env, WritesIn(alts), LitWritesIn(alts), hi, x, b)
  {
    forall k | k in env ensures Quiet(ws, v, k, hi) == Quiet(ws, u, k, hi) {
      QuietByOutline(ws, u, v, k, hi);
    }
    EffectThen(ws, u, v, env, env, Writes(alts.head), LitWrites(alts.head), alts.head.end, WritesIn(alts.tail), LitWritesIn(alts.tail), hi, x, c, b);
  }

  // ----- the claims after a scope

  /** After a statement that may not have run its body. */
  lemma MergeSettled(ws: set<Site>, log: seq<Entry>, n: Node, t: Tracker, env: Env, rest: set<Key>, o: Outcome, normal: bool, a: World, h: World, b: World)
    requires n.Scope? && !n.kind.LitK? && Runnable(ws, log, n, t, env.Keys)
    requires !IsBranching(t.top.frame.kind) && !IsBareBlock(NewFrame(n, map[]), t.top.frame)
    requires Ready(ws, log, t, env, Writes(n), rest, a)
    requires Ran(ws, log, Enter(t, n), env, WritesIn(n.header), LitWritesIn(n.header), After(n.header, n.pos), DeclaredIn(n.header), o, a, h) && o.normal
    requires Settled(ws, HeaderWalked(ws, n, t), o, WritesIn(n.body) + rest)
    requires Effect(ws, HeaderWalked(ws, n, t), o.env, WritesIn(n.body), LitWritesIn(n.body), n.end, h, b)
    requires Ran(ws, log, t, env, Writes(n), LitWrites(n), n.end, {}, Outcome(env, b.st, normal), a, b)
    ensures Live(ws, Walk(ws, n, t).t, env, b.st, rest)
  {
    NothingFellThrough(ws, t, env.Keys);
    hide Walk, WalkIn, Sound, Live, EffectAt, Writes, LitWrites, WritesIn, LitWritesIn, WellFormed, Sane, Sites, Masked;
    assert Merging(ws, n, t, env, o.env, rest, n.end, n.end, a, h, b);
    MergeLive(ws, n, t, env, o.env, rest, n.end, n.end, a, h, b);
  }

  /** After a bare block. */
  lemma CarrySettled(ws: set<Site>, log: seq<Entry>, n: Node, t: Tracker, env: Env, rest: set<Key>, o: Outcome, q: Outcome, a: World, h: World, b: World)
    requires n.Scope? && Runnable(ws, log, n, t, env.Keys) && IsBareBlock(NewFrame(n, map[]), t.top.frame)
    requires Ran(ws, log, Enter(t, n), env, WritesIn(n.header), LitWritesIn(n.header), After(n.header, n.pos), DeclaredIn(n.header), o, a, h) && o.normal
    requires Ran(ws, log, HeaderWalked(ws, n, t), o.env, WritesIn(n.body), LitWritesIn(n.body), After(n.body, After(n.header, n.pos)), DeclaredIn(n.body), q, h, b)
    requires Settled(ws, BodyWalked(ws, n, t), q, rest)
    ensures q.normal ==> Live(ws, Walk(ws, n, t).t, env, b.st, rest)
  {
    assert n.header == Nil;
    assert o.env == env;
    if q.normal {
      hide Walk, WalkIn, Sound, Live, Effect, FreshCells, Writes, LitWrites, WritesIn, LitWritesIn, WellFormed, Sane, Sites, Masked;
      CarryLive(ws, n, t, env, q.env, |h.st.cells|, b.st, rest);
    }
  }

  // ----- small steps

  lemma NothingDone(ws: set<Site>, log: seq<Entry>, t: Tracker, env: Env, w: set<Key>, lw: set<Key>, end: Pos, a: World)
    requires Sound(ws, log, a)
    ensures Effect(ws, t, env, w, lw, end, a, a)
  {
    EffectNothing(ws, t, env, w, lw, end, a);
  }

  lemma ReadyAlone(ws: set<Site>, log: seq<Entry>, t: Tracker, env: Env, w: set<Key>, rest: set<Key>, a: World)
    requires Ready(ws, log, t, env, w, rest, a)
    ensures Ready(ws, log, t, env, w, {}, a)
  {
    LiveNarrows(ws, Masked(t), env, a.st, w + rest, w + {});
  }

  lemma ScopeShape(ws: set<Site>, log: seq<Entry>, n: Node, t: Tracker, env: Env, rest: set<Key>, a: World)
    requires n.Scope? && Runnable(ws, log, n, t, env.Keys) && Ready(ws, log, t, env, Writes(n), rest, a)
    ensures WellShaped(n) && EnvSane(env, a.st) && (n.kind.RangeK? ==> DeclaredIn(n.header) == {})
    ensures !n.kind.RootK?
  {
    PartsFit(n);
  }

  /** The alternatives of a conditional, from where its header ends. */
  lemma BranchStarts(ws: set<Site>, log: seq<Entry>, n: Node, u: Tracker, env: Env, h: World)
    requires n.Scope? && WellShaped(n) && IsBranching(n.kind)
    requires Ready(ws, log, u, env, WritesIn(n.body), {}, h) && Masked(u) == u
    ensures AreBranches(n.body) && DeclaredIn(n.body) == {} && Live(ws, u, env, h.st, WritesIn(n.body))
    ensures forall skip: nat :: Seen(u, skip) == u
  {
    BodiesAreBranches(n);
    assert WritesIn(n.body) + {} == WritesIn(n.body);
  }

  /** The parts of a loop: what they write of what outlives an iteration is killed in it. */
  lemma LoopParts(ws: set<Site>, log: seq<Entry>, n: Node, u: Tracker, avail: set<Key>)
    requires LoopPlaced(ws, log, n, u, avail)
    ensures DeclaredIn(n.body) == {} && IsLoop(u.top.frame.kind)
    ensures n.body.Cons? && n.body.tail.Cons? ==>
              forall k <- InnerScope(n, avail) :: k in WritesIn(n.body) ==> ReassignedWhileRunning(ws, u.top.frame, k)
  {
    PartsFit(n);
    if n.body.Cons? && n.body.tail.Cons? {
      forall k | k in InnerScope(n, avail) && k in WritesIn(n.body) ensures ReassignedWhileRunning(ws, u.top.frame, k) {
        LoopKills(ws, log, n, u, avail, k);
      }
    }
  }

  /** What a body did, by the end of its scope. */
  lemma BodyEnds(ws: set<Site>, log: seq<Entry>, n: Node, u: Tracker, avail: set<Key>, env: Env, q: Outcome, h: World, b: World)
    requires n.Scope? && RunnableIn(ws, log, n.body, u, After(n.header, n.pos), n.end, avail) && Masked(u) == u
    requires Ran(ws, log, u, env, WritesIn(n.body), LitWritesIn(n.body), After(n.body, After(n.header, n.pos)), DeclaredIn(n.body), q, h, b)
    ensures Effect(ws, u, env, WritesIn(n.body), LitWritesIn(n.body), n.end, h, b)
  {
    AfterIsAhead(n.body, After(n.header, n.pos), n.end, avail);
    EffectLater(ws, u, env, WritesIn(n.body), LitWritesIn(n.body), n.end, WritesIn(n.body), LitWritesIn(n.body), After(n.body, After(n.header, n.pos)), h, b);
  }

  lemma LitReady(ws: set<Site>, log: seq<Entry>, n: Node, t: Tracker, env: Env, rest: set<Key>, a: World)
    requires n.Scope? && n.kind.LitK? && Runnable(ws, log, n, t, env.Keys) && Ready(ws, log, t, env, Writes(n), rest, a)
    ensures Masked(t) == t && EnvSane(env, a.st)
  {
    NothingFellThrough(ws, t, env.Keys);
  }

  /** The expressions of an assignment are ready when the assignment is. */
  lemma AssignReady(ws: set<Site>, log: seq<Entry>, n: Node, t: Tracker, env: Env, rest: set<Key>, a: World)
    requires n.Assign? && Runnable(ws, log, n, t, env.Keys) && Ready(ws, log, t, env, Writes(n), rest, a)
    ensures RunnableIn(ws, log, n.inner, t, n.pos, n.end, env.Keys) && InSequence(t.top.frame.kind, n.inner)
    ensures DeclaredIn(n.inner) == {} && t.top.frame.fallthroughWrites == {} && Masked(t) == t && EnvSane(env, a.st)
    ensures Unfrozen(ws, a, env, Writes(n))
    ensures Ready(ws, log, t, env, WritesIn(n.inner), TargetKeys(n.targets) + rest, a)
  {
    InnerRunnable(ws, log, n, t, env.Keys);
    assert WritesIn(n.inner) + (TargetKeys(n.targets) + rest) == Writes(n) + rest;
  }

  lemma NothingDeclared(ns: Nodes, avail: set<Key>)
    requires ns.Cons? && DeclaredIn(ns) == {}
    ensures Declared(ns.head) == {} && DeclaredIn(ns.tail) == {} && avail + Declared(ns.head) == avail
  {
  }

  /** A function literal's creation, as a run. */
  lemma LitRan(ws: set<Site>, log: seq<Entry>, n: Node, env: Env, a: World, b: World, t: Tracker)
    requires Sound(ws, log, b) && Effect(ws, t, env, Writes(n), LitWrites(n), n.end, a, b) && Masked(t) == t
    requires n.Scope? && EnvSane(env, a.st) && b.st.cells == a.st.cells
    ensures Ran(ws, log, t, env, Writes(n), LitWrites(n), n.end, Declared(n), Outcome(env, b.st, true), a, b)
  {
  }
}
