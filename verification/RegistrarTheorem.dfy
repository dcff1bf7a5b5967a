/**
 The main result for the registrar analysis, from a function's first statement
 on, and what each of its side conditions is for.
 */
module RegistrarTheorem {
  import opened Wrappers
  import opened RegistrarSyntax
  import opened RegistrarTracker
  import opened RegistrarStructure
  import opened RegistrarInvariants
  import opened RegistrarNotes
  import opened RegistrarSemantics
  import opened RegistrarWorld
  import opened RegistrarSteps
  import opened RegistrarClaims
  import opened RegistrarAssign
  import opened RegistrarSoundness
  import opened RegistrarReady
  import opened RegistrarScopes
  import opened RegistrarRuns
  import opened RegistrarTrust

  /** One frame, the signature's, holding what the caller said of the parameters. */
  function Start(body: Node, params: seq<Key>, seeds: map<Key, Prefix>): Tracker {
    Tracker(Bottom(Frame(RootK, body.pos, body.end, params, seeds, {}, {})), {})
  }

  /** The same, with the variables of z given up. */
  function StartBut(body: Node, params: seq<Key>, seeds: map<Key, Prefix>, z: set<Key>): Tracker {
    Start(body, params, seeds).(captured := z)
  }

  function Analyzed(body: Node, params: seq<Key>, seeds: map<Key, Prefix>): seq<Entry> {
    Walk(Sites(body), body, Start(body, params, seeds)).log
  }

  /** The registrar each registration of one call was handed, in the order they were reached. */
  function Observed(body: Node, params: seq<Key>, args: seq<Value>, plan: Plan): seq<Observation> {
    var (env, st) := Allocate(params, args, map[], State([], [], []));
    RunIn(Cons(body, Nil), plan, env, st).st.seen
  }

  /** The body of a function, its parameters, and what a caller said about them. */
  predicate IsFunction(body: Node, params: seq<Key>, seeds: map<Key, Prefix>) {
    && body.Scope? && body.kind.BlockK?
    && WellFormed(body, KeySet(params))
    && seeds.Keys <= KeySet(params)
  }

  /** The caller handed over what it said, but perhaps for the parameters of z. */
  predicate HandedBut(params: seq<Key>, seeds: map<Key, Prefix>, args: seq<Value>, z: set<Key>) {
    && |args| == |params|
    && (forall i, j | 0 <= i < j < |params| :: params[i] != params[j])
    && (forall i | 0 <= i < |params| ::
          params[i] in seeds && seeds[params[i]].resolved && params[i] !in z ==> args[i] == Registrar(seeds[params[i]].path))
  }

  predicate Handed(params: seq<Key>, seeds: map<Key, Prefix>, args: seq<Value>) {
    HandedBut(params, seeds, args, {})
  }

  // ----- a position registers once

  predicate Ordered(log: seq<Entry>, lo: Pos, hi: Pos) {
    && (forall e <- log :: e.Registration? ==> lo <= e.pos < hi)
    && (forall i, j | 0 <= i < j < |log| :: log[i].Registration? && log[j].Registration? ==> log[i].pos < log[j].pos)
  }

  lemma OrderedThen(a: seq<Entry>, b: seq<Entry>, lo: Pos, mid: Pos, next: Pos, hi: Pos)
    requires Ordered(a, lo, mid) && Ordered(b, next, hi) && lo <= mid <= next <= hi
    ensures Ordered(a + b, lo, hi)
  {
    var log := a + b;
    forall i | 0 <= i < |log| && log[i].Registration?
      ensures lo <= log[i].pos < hi && (i < |a| ==> log[i].pos < mid) && (i >= |a| ==> next <= log[i].pos)
    {
      assert if i < |a| then log[i] == a[i] && a[i] in a else log[i] == b[i - |a|] && b[i - |a|] in b;
    }
  }

  lemma {:induction false} HazardsOrdered(ws: set<Site>, t: Tracker, pos: Pos, targets: seq<Target>, hi: Pos)
    requires pos <= hi
    ensures Ordered(Hazards(ws, t, pos, targets), pos, pos)
    decreases |targets|
  {
    if targets != [] {
      HazardsOrdered(ws, t, pos, targets[1..], hi);
      OrderedThen(TargetHazards(ws, t, pos, targets[0]), Hazards(ws, t, pos, targets[1..]), pos, pos, pos, pos);
    }
  }

  lemma {:induction false} WalkOrdered(ws: set<Site>, n: Node, t: Tracker, avail: set<Key>)
    requires WellFormed(n, avail)
    ensures Ordered(Walk(ws, n, t).log, n.pos, n.end)
    decreases n, 1
  {
    match n
    case Call(pos, end, registrar, inner) =>
      var lo := if registrar.Some? then pos + 1 else pos;
      WalkInOrdered(ws, inner, t, lo, end, avail);
      var own := if registrar.Some? then [Registration(pos, registrar.value, Lookup(ws, t, registrar.value))] else [];
      AfterIsAhead(inner, lo, end, avail);
      OrderedThen(own, WalkIn(ws, inner, t).log, pos, lo, lo, end);
    case Assign(pos, end, _, targets, inner) =>
      WalkInOrdered(ws, inner, t, pos, end, avail);
      HazardsOrdered(ws, t, pos, targets, end);
      AfterIsAhead(inner, pos, end, avail);
      OrderedThen(Hazards(ws, t, pos, targets), WalkIn(ws, inner, t).log, pos, pos, pos, end);
    case Scope(_, pos, end, _, header, body) =>
      var mid := After(header, pos);
      WalkInOrdered(ws, header, Enter(t, n), pos, end, avail);
      WalkInOrdered(ws, body, HeaderWalked(ws, n, t), mid, end, InnerScope(n, avail));
      AfterIsAhead(header, pos, end, avail);
      AfterIsAhead(body, mid, end, InnerScope(n, avail));
      OrderedThen(WalkIn(ws, header, Enter(t, n)).log, WalkIn(ws, body, HeaderWalked(ws, n, t)).log,
                  pos, mid, mid, After(body, mid));
  }

  lemma {:induction false} WalkInOrdered(ws: set<Site>, ns: Nodes, t: Tracker, lo: Pos, hi: Pos, avail: set<Key>)
    requires WellFormedIn(ns, lo, hi, avail)
    ensures Ordered(WalkIn(ws, ns, t).log, lo, After(ns, lo))
    decreases ns, 0
  {
    if ns.Cons? {
      var w, next := Walk(ws, ns.head, t), avail + Declared(ns.head);
      WalkOrdered(ws, ns.head, t, avail);
      WalkInOrdered(ws, ns.tail, w.t, ns.head.end, hi, next);
      AfterIsAhead(ns.tail, ns.head.end, hi, next);
      assert Ordered(w.log, lo, ns.head.end);
      OrderedThen(w.log, WalkIn(ws, ns.tail, w.t).log, lo, ns.head.end, ns.head.end, After(ns.tail, ns.head.end));
    }
  }

  // ----- the theorem

  /** The cells of the parameters hold the arguments. */
  lemma ArgumentsHeld(params: seq<Key>, args: seq<Value>)
    requires |args| == |params| && forall i, j | 0 <= i < j < |params| :: params[i] != params[j]
    ensures var (env, st) := Allocate(params, args, map[], State([], [], []));
            && env.Keys == KeySet(params) && EnvSane(env, st) && st.pool == []  && st.seen == []
            && (forall i | 0 <= i < |params| :: params[i] in env && st.cells[env[params[i]]].value == args[i])
  {
    var empty := State([], [], []);
    var want := map i | 0 <= i < |params| :: params[i] := args[i];
    AllocateFacts(params, args, map[], empty);
    AllocateValues(params, args, map[], empty, want);
    forall i | 0 <= i < |params| ensures params[i] in KeySet(params) && want[params[i]] == args[i] {
    }
  }

  lemma StartWorld(body: Node, params: seq<Key>, seeds: map<Key, Prefix>, args: seq<Value>, log: seq<Entry>, z: set<Key>)
    requires IsFunction(body, params, seeds) && HandedBut(params, seeds, args, z)
    ensures var (env, st) := Allocate(params, args, map[], State([], [], []));
            && env.Keys == KeySet(params)
            && Ready(Sites(body), log, StartBut(body, params, seeds, z), env, Writes(body), {}, World(st, []))
  {
    hide WellFormed, WellFormedIn, Sane, Walk, WalkIn, Sites, Writes, Masked;
    var ws, t := Sites(body), StartBut(body, params, seeds, z);
    var (env, st) := Allocate(params, args, map[], State([], [], []));
    ArgumentsHeld(params, args);
    MaskedIsSame(t);
    hide Allocate, WellFormed, Sites, Writes;
    forall k | k in env ensures ClaimHolds(ws, t, env, st, k) {
      assert k in KeySet(params);
      var i :| 0 <= i < |params| && params[i] == k;
    }
    assert forall l: nat :: !PoolWrites(st, l) && !Frozen(ws, World(st, []), l);
  }

  lemma StartRunnable(body: Node, params: seq<Key>, seeds: map<Key, Prefix>, log: seq<Entry>, z: set<Key>)
    requires IsFunction(body, params, seeds) && AllRegistrations(log) && log == Walk(Sites(body), body, StartBut(body, params, seeds, z)).log
    ensures RunnableIn(Sites(body), log, Cons(body, Nil), StartBut(body, params, seeds, z), body.pos, body.end, KeySet(params))
  {
    var ws, t := Sites(body), StartBut(body, params, seeds, z);
    WalkSingle(ws, body, t);
    var one := Cons(body, Nil);
    assert WellFormedIn(Nil, body.end, body.end, KeySet(params) + Declared(body));
    assert WellFormedIn(one, body.pos, body.end, KeySet(params));
    assert FitIn(RootK, Nil) && FitIn(RootK, one);
    assert SitesIn(one) == Sites(body) + {};
    assert DeclaredIn(one) == {};
  }

  /** With z given up, every registration a call reaches is explained. */
  lemma AllExplained(body: Node, params: seq<Key>, seeds: map<Key, Prefix>, args: seq<Value>, plan: Plan, log: seq<Entry>, z: set<Key>)
    requires IsFunction(body, params, seeds) && HandedBut(params, seeds, args, z)
    requires AllRegistrations(log) && log == Walk(Sites(body), body, StartBut(body, params, seeds, z)).log
    ensures forall o <- Observed(body, params, args, plan) :: Explained(log, o)
  {
    hide WellFormed, WellFormedIn, Sane, Walk, WalkIn, Sites, Outline, Masked, Claims, Doomed, Live, EffectAt, Allocate, Run, After, Explained;
    var ws, t := Sites(body), StartBut(body, params, seeds, z);
    var (env, st) := Allocate(params, args, map[], State([], [], []));
    var one := Cons(body, Nil);
    StartWorld(body, params, seeds, args, log, z);
    StartRunnable(body, params, seeds, log, z);
    assert WritesIn(one) == Writes(body) + {};
    var b := RunInSound(ws, log, one, plan, env, World(st, []), t, body.pos, body.end, {});
  }

  /** A position is reported once. */
  lemma OneReport(body: Node, params: seq<Key>, seeds: map<Key, Prefix>, x: Entry, e: Entry)
    requires IsFunction(body, params, seeds)
    requires x in Analyzed(body, params, seeds) && e in Analyzed(body, params, seeds) && x.Registration? && e.Registration? && x.pos == e.pos
    ensures x == e
  {
    var log := Analyzed(body, params, seeds);
    WalkOrdered(Sites(body), body, Start(body, params, seeds), KeySet(params));
    var i :| 0 <= i < |log| && log[i] == x;
    var j :| 0 <= j < |log| && log[j] == e;
    assert i == j;
  }

  /**
   Whatever a call of the function does: every registration it reaches is one
   the analysis reports, and where the analysis gives it a resolved prefix,
   the registrar it was handed has exactly that prefix.  z: the variables of
   which nothing is said, because they may be written where the analysis knows
   nothing, or are handed something else; what is said of the others is true
   if none of them is built from one of z.
   */
  lemma TrustedIsSound(body: Node, params: seq<Key>, seeds: map<Key, Prefix>, args: seq<Value>, plan: Plan, z: set<Key>)
    requires IsFunction(body, params, seeds) && HandedBut(params, seeds, args, z)
    requires Independent(body, z) && HazardsWithin(Analyzed(body, params, seeds), z)
    ensures forall o <- Observed(body, params, args, plan) ::
              && (exists e <- Analyzed(body, params, seeds) :: e.Registration? && e.pos == o.pos && e.key == o.key)
              && (forall e <- Analyzed(body, params, seeds) :: e.Registration? && e.pos == o.pos ==>
                    e.key == o.key && (o.key !in z && IsResolved(e.prefix) ==> o.value == Registrar(e.prefix.value.path)))
  {
    hide WellFormed, WellFormedIn, Walk, WalkIn, Sites, Run, Explained, Independent;
    var ws, log := Sites(body), Analyzed(body, params, seeds);
    var other := Walk(ws, body, StartBut(body, params, seeds, z)).log;
    assert Aside(Start(body, params, seeds), StartBut(body, params, seeds, z), z);
    WalkAside(ws, body, Start(body, params, seeds), StartBut(body, params, seeds, z), z);
    NoHazardLeft(log, other, z);
    AllExplained(body, params, seeds, args, plan, other, z);
    forall o | o in Observed(body, params, args, plan)
      ensures exists e <- log :: e.Registration? && e.pos == o.pos && e.key == o.key
      ensures forall e <- log :: e.Registration? && e.pos == o.pos ==>
                e.key == o.key && (o.key !in z && IsResolved(e.prefix) ==> o.value == Registrar(e.prefix.value.path))
    {
      var x := ReportOf(log, other, o, z);
      forall e | e in log && e.Registration? && e.pos == o.pos
        ensures e.key == o.key && (o.key !in z && IsResolved(e.prefix) ==> o.value == Registrar(e.prefix.value.path))
      {
        OneReport(body, params, seeds, x, e);
      }
    }
  }

  lemma NoHazardLeft(log: seq<Entry>, other: seq<Entry>, z: set<Key>)
    requires LogAside(log, other, z) && HazardsWithin(log, z)
    ensures AllRegistrations(other)
  {
  }

  lemma ReportOf(log: seq<Entry>, other: seq<Entry>, o: Observation, z: set<Key>) returns (x: Entry)
    requires LogAside(log, other, z) && Explained(other, o)
    ensures x in log && x.Registration? && x.pos == o.pos && x.key == o.key
    ensures o.key !in z && IsResolved(x.prefix) ==> o.value == Registrar(x.prefix.value.path)
  {
    var e :| e in other && e.Registration? && e.pos == o.pos && e.key == o.key && (IsResolved(e.prefix) ==> o.value == Registrar(e.prefix.value.path));
    x :| x in log && Alike(x, e, z);
  }

  /** Where the walk reports no hazard, what it says of every variable is true. */
  lemma AnalysisIsSound(body: Node, params: seq<Key>, seeds: map<Key, Prefix>, args: seq<Value>, plan: Plan)
    requires IsFunction(body, params, seeds) && Handed(params, seeds, args)
    requires AllRegistrations(Analyzed(body, params, seeds))
    ensures forall o <- Observed(body, params, args, plan) ::
              && (exists e <- Analyzed(body, params, seeds) :: e.pos == o.pos && e.key == o.key)
              && (forall e <- Analyzed(body, params, seeds) :: e.pos == o.pos ==>
                    e.key == o.key && (IsResolved(e.prefix) ==> o.value == Registrar(e.prefix.value.path)))
  {
    NothingDepends(body);
    TrustedIsSound(body, params, seeds, args, plan, {});
  }

  lemma {:induction false} NothingDepends(n: Node)
    ensures Independent(n, {})
    decreases n, 1
  {
    match n
    case Call(_, _, _, inner) => NothingDependsIn(inner);
    case Assign(_, _, _, _, inner) => NothingDependsIn(inner);
    case Scope(_, _, _, _, header, body) => NothingDependsIn(header); NothingDependsIn(body);
  }

  lemma {:induction false} NothingDependsIn(ns: Nodes)
    ensures IndependentIn(ns, {})
    decreases ns, 0
  {
    if ns.Cons? {
      NothingDepends(ns.head);
      NothingDependsIn(ns.tail);
    }
  }
}
