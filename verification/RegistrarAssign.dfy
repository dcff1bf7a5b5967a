/** One assignment: the values it stores are the ones the analysis records. */
module RegistrarAssign {
  import opened Wrappers
  import opened RegistrarSyntax
  import opened RegistrarTracker
  import opened RegistrarStructure
  import opened RegistrarInvariants
  import opened RegistrarNotes
  import opened RegistrarSemantics
  import opened RegistrarWorld
  import opened RegistrarSteps
  import opened RegistrarClaims

  /** No write so far in the header being walked stands in the way of the enclosing scope's binding. */
  predicate HeaderClean(t: Tracker) {
    IsHeader(t.top.frame.kind) ==>
      t.top.Push? && forall k <- t.top.frame.values :: t.top.frame.values[k].resolved ==> Declares(t.top.frame, k)
  }

  /** A claim on the variable just written is the value just written. */
  lemma SetClaims(ws: set<Site>, t: Tracker, k: Key, pos: Pos, v: Prefix)
    requires HeaderClean(t)
    ensures var r := t.(top := SetIn(t.top, k, WrittenValue(t.top, k, pos, v)));
            && (Claims(ws, r, k) ==> v.resolved && Lookup(ws, r, k) == Some(v))
            && (Claims(ws, r, k) ==> !CarriedAcrossRuns(if LandsOutside(t.top, k) then t.top.parent else t.top, k, pos))
            && HeaderClean(r)
  {
    var value := WrittenValue(t.top, k, pos, v);
    var r := t.(top := SetIn(t.top, k, value));
    if LandsOutside(t.top, k) && k !in t.top.frame.values {
      var dep := k in t.captured;
      assert Lookup(ws, r, k) == LookupFrom(ws, r.top.parent, k, dep);
      assert r.top.parent.frame.values[k] == value;
    }
  }

  /** What a run of stores may change: the cells of the variables written, and nothing else. */
  ghost predicate Stored(ws: set<Site>, env: Env, ks: set<Key>, a: World, b: World) {
    && Extends(a, b) && |a.st.cells| == |b.st.cells| && a.snaps == b.snaps && a.st.pool == b.st.pool && a.st.seen == b.st.seen
    && (forall l | 0 <= l < |a.st.cells| ::
          a.st.cells[l] == b.st.cells[l] || (At(env, a.st, l) && a.st.cells[l].owner in ks))
    && (forall l: nat :: PoolWrites(b.st, l) <==> PoolWrites(a.st, l))
    && (forall l: nat :: Frozen(ws, b, l) <==> Frozen(ws, a, l))
  }

  /** What recording one target keeps, and what is claimed of it then. */
  lemma RecordKeeps(ws: set<Site>, before: Tracker, x: Target, t: Tracker, pos: Pos, avail: set<Key>)
    requires Sane(ws, t.top, avail) && x.key in avail && (x.key.from <= pos || Declares(t.top.frame, x.key)) && HeaderClean(t)
    requires !Recorded(ws, before, x) ==> !Claims(ws, t, x.key)
    requires Recorded(ws, before, x) ==> Traceable(ws, x.key) || Touched(t.top, x.key)
    ensures var (r, v) := (WriteTarget(ws, before, t, pos, x), RhsBinding(ws, before, x.rhs).value);
            && Sane(ws, r.top, avail) && HeaderClean(r) && Grew(t, r, {x.key}) && Tracks(ws, t, r)
            && (Claims(ws, r, x.key) ==> Recorded(ws, before, x) && v.resolved && Lookup(ws, r, x.key) == Some(v) && x.key !in t.captured)
  {
    var r, v := WriteTarget(ws, before, t, pos, x), RhsBinding(ws, before, x.rhs).value;
    SetKeepsSane(ws, t.top, x.key, pos, v, avail);
    StackGrewReflexive(t.top, {x.key});
    SetClaims(ws, t, x.key, pos, v);
    if Claims(ws, r, x.key) {
      ClaimedIsFree(ws, r, x.key);
    }
    forall j | Touched(r.top, j) ensures Touched(t.top, j) || Traceable(ws, j) {
      SetTouches(t.top, x.key, WrittenValue(t.top, x.key, pos, v), j);
    }
  }

  /** One target: stored and recorded alike. */
  lemma StoreTarget(ws: set<Site>, log: seq<Entry>, before: Tracker, x: Target, v: Value, env: Env, a: World, t: Tracker, pos: Pos, w: set<Key>)
    requires Sound(ws, log, a) && Live(ws, t, env, a.st, w)
    requires x.key in env && x.key in w && !Frozen(ws, a, env[x.key])
    requires Sane(ws, t.top, env.Keys) && (x.key.from <= pos || Declares(t.top.frame, x.key)) && HeaderClean(t)
    requires before.captured <= t.captured
    requires RhsBinding(ws, before, x.rhs).value.resolved && Recorded(ws, before, x) && x.key !in before.captured
             ==> v == Registrar(RhsBinding(ws, before, x.rhs).value.path)
    requires !Recorded(ws, before, x) ==> !Claims(ws, t, x.key)
    requires Recorded(ws, before, x) ==> Traceable(ws, x.key) || Touched(t.top, x.key)
    ensures var b := World(Store(env, a.st, x.key, v), a.snaps);
            var r := WriteTarget(ws, before, t, pos, x);
            && Sound(ws, log, b) && Live(ws, r, env, b.st, w) && Stored(ws, env, {x.key}, a, b)
            && Sane(ws, r.top, env.Keys) && HeaderClean(r) && Grew(t, r, {x.key})
  {
    hide Sites, Writes, LitWrites, Lookup, Walk, WellFormed, Sane, HeaderClean, Grew, Tracks, WriteTarget, Doomed, Sound, Touched, Recorded;
    var b := World(Store(env, a.st, x.key, v), a.snaps);
    var r := WriteTarget(ws, before, t, pos, x);
    StoreKeeps(ws, log, a, env, x.key, v);
    RecordKeeps(ws, before, x, t, pos, env.Keys);
    assert At(env, a.st, env[x.key]);
    forall k | k in env
      ensures ClaimHolds(ws, r, env, b.st, k)
      ensures k in w && PoolWrites(b.st, env[k]) ==> Doomed(ws, r, k)
    {
      assert ClaimHolds(ws, t, env, a.st, k);
      if k in w && PoolWrites(a.st, env[k]) {
        DoomedGrows(ws, t, r, {x.key}, k);
        DoomedIsUnresolved(ws, r, k, env.Keys);
      }
      if k != x.key {
        UnwrittenKeepsBinding(ws, t, r, {x.key}, k);
        assert env[k] != env[x.key];
      }
    }
  }

  /** Storing the first value leaves what is known of the other targets. */
  lemma NextTargets(ws: set<Site>, before: Tracker, t: Tracker, pos: Pos, targets: seq<Target>)
    requires targets != [] && Grew(t, WriteTarget(ws, before, t, pos, targets[0]), {targets[0].key})
    requires forall i, j | 0 <= i < j < |targets| :: targets[i].key != targets[j].key
    requires forall x <- targets :: !Recorded(ws, before, x) ==> !Claims(ws, t, x.key)
    requires forall x <- targets :: Recorded(ws, before, x) ==> Traceable(ws, x.key) || Touched(t.top, x.key)
    ensures var r := WriteTarget(ws, before, t, pos, targets[0]);
            forall y <- targets[1..] ::
              && y in targets && y.key != targets[0].key
              && (!Recorded(ws, before, y) ==> !Claims(ws, r, y.key))
              && (Recorded(ws, before, y) ==> Traceable(ws, y.key) || Touched(r.top, y.key))
  {
    var x, r := targets[0], WriteTarget(ws, before, t, pos, targets[0]);
    forall y | y in targets[1..]
      ensures y in targets && y.key != x.key
      ensures !Recorded(ws, before, y) ==> !Claims(ws, r, y.key)
      ensures Recorded(ws, before, y) ==> Traceable(ws, y.key) || Touched(r.top, y.key)
    {
      var i :| 0 <= i < |targets[1..]| && targets[1..][i] == y;
      assert targets[i + 1] == y;
      UnwrittenKeepsBinding(ws, t, r, {x.key}, y.key);
      if Touched(t.top, y.key) {
        SetKeepsTouched(t.top, x.key, WrittenValue(t.top, x.key, pos, RhsBinding(ws, before, x.rhs).value), y.key);
      }
    }
  }

  /** The targets of an assignment are different variables that may be written, and the values what the analysis says. */
  ghost predicate Storable(ws: set<Site>, before: Tracker, targets: seq<Target>, values: seq<Value>, env: Env, a: World, t: Tracker, pos: Pos, w: set<Key>) {
    && |values| == |targets| && TargetKeys(targets) <= env.Keys * w && before.captured <= t.captured
    && (forall i, j | 0 <= i < j < |targets| :: targets[i].key != targets[j].key)
    && (forall i | 0 <= i < |targets| ::
          RhsBinding(ws, before, targets[i].rhs).value.resolved && Recorded(ws, before, targets[i]) && targets[i].key !in before.captured
          ==> values[i] == Registrar(RhsBinding(ws, before, targets[i].rhs).value.path))
    && (forall x <- targets ::
          && x.key in env && !Frozen(ws, a, env[x.key]) && (x.key.from <= pos || Declares(t.top.frame, x.key))
          && (!Recorded(ws, before, x) ==> !Claims(ws, t, x.key))
          && (Recorded(ws, before, x) ==> Traceable(ws, x.key) || Touched(t.top, x.key)))
  }

  /** The first target stored leaves the others to store. */
  lemma StoreFirst(ws: set<Site>, log: seq<Entry>, before: Tracker, targets: seq<Target>, values: seq<Value>,
                   env: Env, a: World, t: Tracker, pos: Pos, w: set<Key>)
    requires targets != [] && Sound(ws, log, a) && Live(ws, t, env, a.st, w) && Sane(ws, t.top, env.Keys) && HeaderClean(t)
    requires Storable(ws, before, targets, values, env, a, t, pos, w)
    ensures |values| == |targets| && TargetKeys(targets) <= env.Keys && targets[0].key in env && EnvSane(env, a.st)
    ensures var b := World(Store(env, a.st, targets[0].key, values[0]), a.snaps);
            var r := WriteTarget(ws, before, t, pos, targets[0]);
            && Sound(ws, log, b) && Live(ws, r, env, b.st, w) && Sane(ws, r.top, env.Keys) && HeaderClean(r)
            && Stored(ws, env, {targets[0].key}, a, b) && Storable(ws, before, targets[1..], values[1..], env, b, r, pos, w)
  {
    hide WellFormed, Sane, Walk, Sites, Writes, LitWrites, Lookup, Outline, Doomed, Unfrozen, Sound, HeaderClean, Claims, Touched, Traceable;
    var x := targets[0];
    assert x.key in TargetKeys(targets);
    StoreTarget(ws, log, before, x, values[0], env, a, t, pos, w);
    NextTargets(ws, before, t, pos, targets);
    var r := WriteTarget(ws, before, t, pos, x);
    assert Blank(t.top.frame) == Blank(r.top.frame);
    assert forall y <- targets[1..] :: y.key in TargetKeys(targets);
  }

  lemma {:induction false} StoreTargets(ws: set<Site>, log: seq<Entry>, before: Tracker, targets: seq<Target>, values: seq<Value>,
                                        env: Env, a: World, t: Tracker, pos: Pos, w: set<Key>)
    requires Sound(ws, log, a) && Live(ws, t, env, a.st, w)
    requires Sane(ws, t.top, env.Keys) && HeaderClean(t)
    requires Storable(ws, before, targets, values, env, a, t, pos, w)
    ensures var b := World(StoreAll(targets, env, a.st, values), a.snaps);
            var r := WriteTargets(ws, before, t, pos, targets);
            Sound(ws, log, b) && Live(ws, r, env, b.st, w) && Stored(ws, env, TargetKeys(targets), a, b)
    decreases |targets|
  {
    hide Sane, Sites, Writes, LitWrites, Live, Storable, WriteTarget, Frozen, HeaderClean;
    if targets != [] {
      StoreFirst(ws, log, before, targets, values, env, a, t, pos, w);
      var b := World(Store(env, a.st, targets[0].key, values[0]), a.snaps);
      var r := WriteTarget(ws, before, t, pos, targets[0]);
      StoreTargets(ws, log, before, targets[1..], values[1..], env, b, r, pos, w);
      StoredThen(ws, env, targets, a, b, World(StoreAll(targets[1..], env, b.st, values[1..]), b.snaps));
    }
  }

  lemma StoredThen(ws: set<Site>, env: Env, targets: seq<Target>, a: World, b: World, c: World)
    requires targets != [] && Stored(ws, env, {targets[0].key}, a, b) && Stored(ws, env, TargetKeys(targets[1..]), b, c)
    ensures Stored(ws, env, TargetKeys(targets), a, c)
  {
    assert TargetKeys(targets) == {targets[0].key} + TargetKeys(targets[1..]);
  }

  /** What an expression evaluates to is what the analysis binds to it. */
  lemma EvaluateMatches(ws: set<Site>, t: Tracker, w: Tracker, rhs: Rhs, env: Env, st: State, unknown: Value)
    requires EnvSane(env, st) && ReadsOf(rhs) <= env.Keys
    requires forall k <- ReadsOf(rhs) :: Lookup(ws, w, k) == Lookup(ws, t, k) && ClaimHolds(ws, w, env, st, k)
    requires rhs.Group? ==> Lookup(ws, t, rhs.parent).Some?
    requires RhsBinding(ws, t, rhs).value.resolved && (RhsBinding(ws, t, rhs).traced || !rhs.Copy?)
    ensures Evaluate(rhs, env, st, unknown) == Registrar(RhsBinding(ws, t, rhs).value.path)
  {
    match rhs
    case Group(parent, _) =>
      assert parent in ReadsOf(rhs);
      assert ClaimHolds(ws, w, env, st, parent);
    case Copy(source) =>
      assert source in ReadsOf(rhs);
      assert ClaimHolds(ws, w, env, st, source);
    case Opaque =>
  }

  /** Calls, assignments and function literals: what stands in a header. */
  predicate AreHeaderNodes(ns: Nodes) {
    ns.Cons? ==> (ns.head.Scope? ==> ns.head.kind.LitK?) && AreHeaderNodes(ns.tail)
  }

  lemma {:induction false} ExpressionsAreHeaderNodes(ns: Nodes)
    requires AreExpressions(ns) || AreSimple(ns)
    ensures AreHeaderNodes(ns)
    decreases ns
  {
    if ns.Cons? {
      ExpressionsAreHeaderNodes(ns.tail);
    }
  }

  lemma {:induction false} TargetsStayClean(ws: set<Site>, before: Tracker, t: Tracker, pos: Pos, targets: seq<Target>)
    requires HeaderClean(t)
    ensures HeaderClean(WriteTargets(ws, before, t, pos, targets))
    decreases |targets|
  {
    if targets != [] {
      SetClaims(ws, t, targets[0].key, pos, RhsBinding(ws, before, targets[0].rhs).value);
      TargetsStayClean(ws, before, WriteTarget(ws, before, t, pos, targets[0]), pos, targets[1..]);
    }
  }

  lemma {:induction false} HeaderNodesStayClean(ws: set<Site>, ns: Nodes, t: Tracker, lo: Pos, hi: Pos, avail: set<Key>)
    requires AreHeaderNodes(ns) && HeaderClean(t) && WellFormedIn(ns, lo, hi, avail)
    ensures HeaderClean(WalkIn(ws, ns, t).t)
    decreases ns, 0
  {
    if ns.Cons? {
      HeaderNodeStaysClean(ws, ns.head, t, avail);
      HeaderNodesStayClean(ws, ns.tail, Walk(ws, ns.head, t).t, ns.head.end, hi, avail + Declared(ns.head));
    }
  }

  lemma {:induction false} HeaderNodeStaysClean(ws: set<Site>, n: Node, t: Tracker, avail: set<Key>)
    requires (n.Scope? ==> n.kind.LitK?) && HeaderClean(t) && WellFormed(n, avail)
    ensures HeaderClean(Walk(ws, n, t).t)
    decreases n, 1
  {
    match n
    case Call(pos, end, registrar, inner) =>
      ExpressionsAreHeaderNodes(inner);
      HeaderNodesStayClean(ws, inner, t, if registrar.Some? then pos + 1 else pos, end, avail);
    case Assign(pos, end, _, targets, inner) =>
      ExpressionsAreHeaderNodes(inner);
      HeaderNodesStayClean(ws, inner, t, pos, end, avail);
      TargetsStayClean(ws, t, WalkIn(ws, inner, t).t, pos, targets);
    case Scope(_, _, _, _, _, body) =>
      WalkInReaches(ws, body, Enter(t, n));
      var r := WalkIn(ws, body, Enter(t, n)).t;
      assert r.top.parent == Enter(t, n).top.parent;
  }

  /** The variables an assignment declares are its own: no function literal relies on them yet. */
  ghost predicate FreshCells(ws: set<Site>, t: Tracker, out: Env, decls: set<Key>, end: Pos, b: World) {
    forall k <- decls :: k in out && Frozen(ws, b, out[k]) ==> Quiet(ws, t, k, end)
  }

  /** A write from some point on rules out that its variable is quiet there. */
  lemma WrittenIsNotQuiet(ws: set<Site>, t: Tracker, ns: Nodes, lo: Pos, hi: Pos, avail: set<Key>, k: Key)
    requires WellFormedIn(ns, lo, hi, avail) && SitesIn(ns) <= ws && k in avail && k in WritesIn(ns)
    ensures !Quiet(ws, t, k, lo)
  {
    var site := WriteInHasSite(ns, lo, hi, avail, k);
    assert site in ws;
  }

  lemma TargetIsNotQuiet(ws: set<Site>, t: Tracker, n: Node, k: Key, end: Pos)
    requires n.Assign? && Sites(n) <= ws && k in TargetKeys(n.targets) && k.from < n.end && end <= n.end
    ensures !Quiet(ws, t, k, end)
  {
    var x :| x in n.targets && x.key == k;
    var site := Site(x.key, n.end, !x.rhs.Opaque?);
    assert site in (set t | t in n.targets :: Site(t.key, n.end, !t.rhs.Opaque?));
    assert site in ws;
  }

  /** An expression writes through its function literals alone. */
  lemma {:induction false} ExpressionWritesAreLitWrites(ns: Nodes, lo: Pos, hi: Pos, avail: set<Key>)
    requires AreExpressions(ns) && WellFormedIn(ns, lo, hi, avail)
    ensures WritesIn(ns) == LitWritesIn(ns)
    decreases ns
  {
    if ns.Cons? {
      if ns.head.Call? {
        ExpressionWritesAreLitWrites(ns.head.inner, if ns.head.registrar.Some? then ns.head.pos + 1 else ns.head.pos, ns.head.end, avail);
      }
      ExpressionWritesAreLitWrites(ns.tail, ns.head.end, hi, avail + Declared(ns.head));
    }
  }

  // ----- the whole assignment, once its expressions have run

  lemma AssignReads(ws: set<Site>, n: Node, t: Tracker, env: Env, st: State, rest: set<Key>, values: seq<Value>, i: nat)
    requires n.Assign? && Placed(ws, n, t, env.Keys) && AllRegistrations(Walk(ws, n, t).log) && i < |n.targets|
    requires Live(ws, if AreLiterals(n.inner) then t else WalkIn(ws, n.inner, t).t, env, st, rest)
    requires RhsBinding(ws, t, n.targets[i].rhs).value.resolved && Recorded(ws, t, n.targets[i]) && n.targets[i].key !in t.captured
    ensures EvaluateAll(n.targets, env, st, values)[i] == Registrar(RhsBinding(ws, t, n.targets[i].rhs).value.path)
  {
    var x, w := n.targets[i], WalkIn(ws, n.inner, t);
    var at := if AreLiterals(n.inner) then t else w.t;
    AllRegistrationsSplit(Hazards(ws, t, n.pos, n.targets), w.log);
    UnknownIsLogged(ws, t, n.pos, n.targets, x);
    ExpressionsFit(t.top.frame.kind, n.inner);
    ExpressionsDeclareNothing(n.inner);
    WalkInKeeps(ws, n.inner, t, n.pos, n.end, env.Keys);
    forall k | k in ReadsOf(x.rhs)
      ensures k in env && Lookup(ws, at, k) == Lookup(ws, t, k) && ClaimHolds(ws, at, env, st, k)
    {
      assert k in TargetReads(n.targets);
      if !AreLiterals(n.inner) {
        UnwrittenKeepsBinding(ws, t, w.t, WritesIn(n.inner), k);
      }
    }
    EvaluateMatches(ws, t, at, x.rhs, env, st, ValueAt(values, i));
  }

  /** A variable the analysis does not record is not claimed when its expressions have run. */
  lemma UnrecordedIsUnclaimed(ws: set<Site>, n: Node, t: Tracker, avail: set<Key>, x: Target)
    requires n.Assign? && Placed(ws, n, t, avail) && x in n.targets && !Recorded(ws, t, x) && NothingLost(Walk(ws, n, t).log)
    ensures !Claims(ws, WalkIn(ws, n.inner, t).t, x.key)
  {
    var w, k := WalkIn(ws, n.inner, t), x.key;
    NothingLostSplit(Hazards(ws, t, n.pos, n.targets), w.log);
    ExpressionsFit(t.top.frame.kind, n.inner);
    ExpressionsDeclareNothing(n.inner);
    WalkInKeeps(ws, n.inner, t, n.pos, n.end, avail);
    if k in WritesIn(n.inner) && k in avail {
      ExpressionWritesAreLitWrites(n.inner, n.pos, n.end, avail);
      WalkInCaptures(ws, n.inner, t, n.pos, n.end, avail, k);
      DoomedIsUnresolved(ws, w.t, k, avail + DeclaredIn(n.inner));
    } else if k in avail {
      UnwrittenKeepsBinding(ws, t, w.t, WritesIn(n.inner), k);
    } else {
      assert avail + DeclaredIn(n.inner) == avail;
      UnmentionedIsUnclaimed(ws, w.t, avail, k);
    }
  }

  lemma UnmentionedIsUnclaimed(ws: set<Site>, t: Tracker, avail: set<Key>, k: Key)
    requires Sane(ws, t.top, avail) && k !in avail
    ensures !Claims(ws, t, k)
  {
    SaneMentions(ws, t.top, avail, k);
    UnmentionedIsUnknown(t.top, k);
    LookupKnown(ws, t.top, k, k in t.captured);
  }

  lemma {:induction false} UnmentionedIsUnknown(s: Stack, k: Key)
    requires !Mentions(s, k)
    ensures !Known(s, k)
    decreases s
  {
    if s.Push? {
      UnmentionedIsUnknown(s.parent, k);
    }
  }

  /** New cells for variables the analysis knows nothing of yet. */
  lemma LiveAllocate(ws: set<Site>, log: seq<Entry>, t: Tracker, keys: seq<Key>, values: seq<Value>, env: Env, a: World, w: set<Key>)
    requires Sound(ws, log, a) && Live(ws, t, env, a.st, w)
    requires forall k <- keys :: !Claims(ws, t, k)
    ensures var (out, st) := Allocate(keys, values, env, a.st);
            && Live(ws, t, out, st, w) && EnvGrew(env, out, KeySet(keys), |a.st.cells|)
            && MoreCells(a, st) && Sound(ws, log, World(st, a.snaps))
  {
    var (out, st) := Allocate(keys, values, env, a.st);
    AllocateFacts(keys, values, env, a.st);
    MoreCellsKeep(ws, log, a, st);
    MoreCellsExtend(a, st);
    PoolEnvSane(ws, log, a);
    forall k | k in out
      ensures ClaimHolds(ws, t, out, st, k)
      ensures k in w && PoolWrites(st, out[k]) ==> Doomed(ws, t, k)
    {
      MoreCellsPoolWrites(a, st, out[k]);
      if k !in KeySet(keys) {
        assert ClaimHolds(ws, t, env, a.st, k);
      }
    }
  }
}
