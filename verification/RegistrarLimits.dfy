/**
 What the side conditions of the main result are for: without each of them the
 analysis resolves a registration to a prefix that a run of the code does not
 see.
 */
module RegistrarLimits {
  import opened Wrappers
  import opened RegistrarSyntax
  import opened RegistrarTracker
  import opened RegistrarStructure
  import opened RegistrarNotes
  import opened RegistrarSemantics
  import opened RegistrarTheorem

  /** Some registration is resolved to a prefix the registrar it was handed does not have. */
  ghost predicate Misread(body: Node, params: seq<Key>, seeds: map<Key, Prefix>, args: seq<Value>, plan: Plan) {
    exists o <- Observed(body, params, args, plan), e <- Analyzed(body, params, seeds) ::
      e.Registration? && e.pos == o.pos && IsResolved(e.prefix) && o.value != Registrar(e.prefix.value.path)
  }

  function Plain(main: Plan): Choice {
    Choice(Done, main, End, [Other], false)
  }

  function Steps(n: nat): Plan {
    if n == 0 then Done else Step(Plain(Done), Steps(n - 1))
  }

  const R := Key("r", 0)
  const SEED := Prefix("", true, UnresolvedArgument)

  // ----- a group opened on a variable nothing is known of

  const API := Key("api", 4)
  const OPEN_GROUP := Assign(2, 4, [API], [Target(API, Group(R, Some("/x")))], Nil)
  const REGISTER := Call(5, 8, Some(API), Nil)

  /** `api := r.Group("/x"); m.Handle(api, ...)` */
  const UNKNOWN_PARENT := Scope(BlockK, 1, 20, [API], Nil, Cons(OPEN_GROUP, Cons(REGISTER, Nil)))

  lemma AllocateOne(k: Key, env: Env, st: State)
    ensures Allocate([k], [], env, st) == (env[k := |st.cells|], st.(cells := st.cells + [Cell(k, Other)]))
  {
    assert [k][1..] == [];
  }

  lemma UnknownParentWellFormed()
    ensures IsFunction(UNKNOWN_PARENT, [R], map[])
  {
    var avail := KeySet([R]);
    assert avail == {R};
    assert KeySet([API]) == {API};
    assert TargetKeys(OPEN_GROUP.targets) == {API};
    assert OPEN_GROUP.targets[0] in OPEN_GROUP.targets && ReadsOf(OPEN_GROUP.targets[0].rhs) == {R};
    assert forall x <- OPEN_GROUP.targets :: ReadsOf(x.rhs) == {R};
    assert TargetReads(OPEN_GROUP.targets) == {R};
    assert WritesIn(Nil) == {} && Declared(OPEN_GROUP) == {API};
    assert WellFormedIn(Nil, 2, 4, avail);
    assert WellFormed(OPEN_GROUP, avail);
    assert WellFormed(REGISTER, avail + Declared(OPEN_GROUP));
    assert WellFormedIn(Cons(REGISTER, Nil), 4, 20, avail + Declared(OPEN_GROUP));
    assert WellFormedIn(UNKNOWN_PARENT.body, 1, 20, avail);
    assert AreStatements(UNKNOWN_PARENT.body);
    assert DeclaredIn(Cons(REGISTER, Nil)) == {};
    assert DeclaredIn(UNKNOWN_PARENT.body) == {API};
    assert WellFormedIn(Nil, 1, 20, avail) && avail + DeclaredIn(Nil) == avail;
    assert InnerScope(UNKNOWN_PARENT, avail) == avail;
    assert DeclaresWhatItShould(UNKNOWN_PARENT) && WellShaped(UNKNOWN_PARENT);
    assert WellFormed(UNKNOWN_PARENT, avail);
  }

  /** Where the walk stands inside the body of a function. */
  function Inside(body: Node, seeds: map<Key, Prefix>): Tracker
    requires body.Scope?
  {
    Enter(Start(body, [R], seeds), body)
  }

  lemma AnalyzedInside(body: Node, seeds: map<Key, Prefix>)
    requires body.Scope? && body.header.Nil?
    ensures Analyzed(body, [R], seeds) == WalkIn(Sites(body), body.body, Inside(body, seeds)).log
  {
    var ws, t := Sites(body), Inside(body, seeds);
    assert Analyzed(body, [R], seeds) == WalkIn(ws, Nil, t).log + WalkIn(ws, body.body, WalkIn(ws, Nil, t).t).log;
    assert WalkIn(ws, Nil, t) == Walked(t, []);
  }

  lemma ObservedInside(body: Node, v: Value, plan: Plan)
    requires body.Scope? && body.kind.BlockK? && body.header.Nil?
    ensures Observed(body, [R], [v], Step(Plain(plan), Done)) == RunIn(body.body, plan, map[R := 0], State([Cell(R, v)], [], [])).st.seen
  {
    var env, st := map[R := 0], State([Cell(R, v)], [], []);
    assert [R][1..] == [] && [v][1..] == [] && [] + [Cell(R, v)] == st.cells && map[][R := 0] == env;
    assert Allocate([], [], env, st) == (env, st);
    assert Allocate([R], [v], map[], State([], [], [])) == (env, st);
    assert RunIn(Nil, Done, env, st) == Outcome(env, st, true);
    var o := Run(body, Plain(plan), env, st);
    assert o.st == RunIn(body.body, plan, env, st).st;
    assert RunIn(Nil, Done, o.env, o.st).st == o.st;
  }

  const X := Prefix("/x", true, UnresolvedArgument)

  /** A group opened on r while api is held by the innermost scope alone. */
  lemma GroupWalked(ws: set<Site>, n: Node, t: Tracker)
    requires n.Assign? && n.inner == Nil && n.targets == [Target(API, Group(R, Some("/x")))]
    requires t.top.frame.kind.BlockK? && Declares(t.top.frame, API)
    requires RhsBinding(ws, t, Group(R, Some("/x"))) == Traced(X, true)
    ensures Walk(ws, n, t).t == t.(top := OnTop(t.top, WithValue(t.top.frame, API, X)))
  {
    assert WalkIn(ws, Nil, t).t == t;
    assert n.targets[1..] == [];
    var u := WriteTarget(ws, t, t, n.pos, n.targets[0]);
    assert u == t.(top := OnTop(t.top, WithValue(t.top.frame, API, X)));
    assert WriteTargets(ws, t, u, n.pos, []) == u;
  }

  lemma RegisterWalked(ws: set<Site>, n: Node, t: Tracker)
    requires n.Call? && n.registrar == Some(API) && n.inner == Nil
    requires Lookup(ws, t, API) == Some(X)
    ensures Registration(n.pos, API, Some(X)) in WalkIn(ws, Cons(n, Nil), t).log
  {
    var e := Registration(n.pos, API, Some(X));
    assert WalkIn(ws, Nil, t) == Walked(t, []);
    assert Walk(ws, n, t).log == [e] + [];
    assert WalkIn(ws, Cons(n, Nil), t).log == Walk(ws, n, t).log + [];
  }

  lemma UnknownParentAnalyzed()
    ensures Registration(5, API, Some(X)) in Analyzed(UNKNOWN_PARENT, [R], map[])
  {
    var body, ws, t := UNKNOWN_PARENT, Sites(UNKNOWN_PARENT), Inside(UNKNOWN_PARENT, map[]);
    AnalyzedInside(body, map[]);
    assert t.top.frame.values == map[] && t.top.parent.frame.values == map[];
    assert LookupFrom(ws, t.top.parent, R, false) == None;
    assert Lookup(ws, t, R) == None;
    assert "" + "/x" == "/x";
    GroupWalked(ws, OPEN_GROUP, t);
    var u := Walk(ws, OPEN_GROUP, t).t;
    assert Lookup(ws, u, API) == Some(X);
    RegisterWalked(ws, REGISTER, u);
    assert WalkIn(ws, body.body, t).log == Walk(ws, OPEN_GROUP, t).log + WalkIn(ws, Cons(REGISTER, Nil), u).log;
  }

  /** A group opened on r, once it is stored. */
  lemma GroupRun(n: Node, env: Env, st: State, v: Value)
    requires n.Assign? && n.inner == Nil && n.targets == [Target(API, Group(R, Some("/x")))]
    requires v == Registrar((var p := Read(env, st, R); if p.Registrar? then p.prefix else "") + "/x") && Read(env, st, R).Registrar?
    ensures var (env1, st1) := Allocate(n.decls, [], env, st);
            Run(n, Plain(Done), env, st) == Outcome(env1, Store(env1, st1, API, v), true)
  {
    var (env1, st1) := Allocate(n.decls, [], env, st);
    var values := EvaluateAll(n.targets, env, st, [Other]);
    assert RunIn(Nil, Done, env, st) == Outcome(env, st, true);
    assert values == [v];
    assert n.targets[1..] == [] && values[1..] == [];
    assert StoreAll([], env1, Store(env1, st1, API, v), []) == Store(env1, st1, API, v);
  }

  lemma UnknownParentRuns()
    ensures Observation(5, API, Registrar("/v1/x")) in Observed(UNKNOWN_PARENT, [R], [Registrar("/v1")], Step(Plain(Steps(2)), Done))
  {
    var env, st := map[R := 0], State([Cell(R, Registrar("/v1"))], [], []);
    ObservedInside(UNKNOWN_PARENT, Registrar("/v1"), Steps(2));
    assert "/v1" + "/x" == "/v1/x";
    AllocateOne(API, env, st);
    GroupRun(OPEN_GROUP, env, st, Registrar("/v1/x"));
    var o1 := Run(OPEN_GROUP, Plain(Done), env, st);
    assert Read(o1.env, o1.st, API) == Registrar("/v1/x");
    assert RunIn(Nil, Done, o1.env, o1.st) == Outcome(o1.env, o1.st, true);
    var o2 := Run(REGISTER, Plain(Done), o1.env, o1.st);
    assert Observation(5, API, Registrar("/v1/x")) in o2.st.seen;
    assert RunIn(Cons(REGISTER, Nil), Steps(1), o1.env, o1.st).st == RunIn(Nil, Done, o2.env, o2.st).st == o2.st;
    assert RunIn(UNKNOWN_PARENT.body, Steps(2), env, st).st == o2.st;
  }

  /** It reads as prefix-less, whatever the variable holds. */
  lemma UnknownParentMisread()
    ensures IsFunction(UNKNOWN_PARENT, [R], map[]) && Handed([R], map[], [Registrar("/v1")])
    ensures Misread(UNKNOWN_PARENT, [R], map[], [Registrar("/v1")], Step(Plain(Steps(2)), Done))
  {
    UnknownParentWellFormed();
    UnknownParentAnalyzed();
    UnknownParentRuns();
    assert "/v1/x" != "/x" by {
      assert |"/v1/x"| != |"/x"|;
    }
  }

  // ----- a write inside a function literal, to a variable not yet known as a registrar

  const WRITE := Assign(8, 12, [], [Target(API, Opaque)], Nil)
  const INNER := Scope(BlockK, 7, 13, [], Nil, Cons(WRITE, Nil))
  const LITERAL := Scope(LitK, 6, 14, [], Nil, Cons(INNER, Nil))
  const DECLARE := Assign(2, 4, [API], [], Nil)
  const CREATE := Call(5, 15, None, Cons(LITERAL, Nil))
  const REOPEN := Assign(16, 20, [], [Target(API, Group(R, Some("/x")))], Nil)
  const REGISTER_LATER := Call(21, 25, Some(API), Nil)

  /** `var api; m.Later(func() { api = m.x() }); api = r.Group("/x"); ...; m.Handle(api, ...)` */
  const LOST_WRITE := Scope(BlockK, 1, 40, [API], Nil,
                            Cons(DECLARE, Cons(CREATE, Cons(REOPEN, Cons(REGISTER_LATER, Nil)))))

  /** The literal runs after the group is stored and before the registration. */
  const LATE_CALL := Step(Plain(Done), Step(Choice(Step(Plain(Done), Done), Done, End, [], false), Step(Plain(Done),
                     Invoke(0, [], Step(Plain(Step(Plain(Done), Done)), Done), Step(Plain(Done), Done)))))

  lemma LiteralWellFormed(more: set<Key>)
    requires more == {R, API}
    ensures WellFormed(LITERAL, more)
  {
    assert KeySet([]) == {} && more + {} == more;
    assert TargetKeys(WRITE.targets) == {API} && TargetReads(WRITE.targets) == {};
    assert WellFormed(WRITE, more);
    assert WellFormedIn(INNER.body, 7, 13, more) && WellFormedIn(Nil, 7, 13, more);
    assert DeclaredIn(INNER.body) == {} && AreStatements(INNER.body);
    assert WellFormed(INNER, more);
    assert WellFormedIn(LITERAL.body, 6, 14, more) && WellFormedIn(Nil, 6, 14, more);
    assert WellFormed(LITERAL, more);
  }

  lemma CreateWellFormed(more: set<Key>)
    requires more == {R, API}
    ensures WellFormed(CREATE, more)
  {
    LiteralWellFormed(more);
    assert WellFormedIn(Nil, 14, 15, more + Declared(LITERAL));
    assert WellFormedIn(CREATE.inner, 5, 15, more) && AreExpressions(CREATE.inner);
  }

  lemma LostWriteWellFormed()
    ensures IsFunction(LOST_WRITE, [R], map[R := SEED])
  {
    var avail, more := {R}, {R, API};
    assert KeySet([R]) == avail && KeySet([API]) == {API} && KeySet([]) == {};
    assert avail + {API} == more && more + {} == more;
    CreateWellFormed(more);
    assert TargetKeys(REOPEN.targets) == {API};
    assert forall x <- REOPEN.targets :: ReadsOf(x.rhs) == {R};
    assert REOPEN.targets[0] in REOPEN.targets && TargetReads(REOPEN.targets) == {R};
    assert WellFormedIn(Nil, 16, 20, more);
    assert WellFormed(REOPEN, more);
    assert WellFormed(REGISTER_LATER, more);
    assert TargetKeys(DECLARE.targets) == {} && TargetReads(DECLARE.targets) == {} && WellFormedIn(Nil, 2, 4, avail);
    assert WellFormed(DECLARE, avail);
    hide WellFormed, WellFormedIn, TargetReads, ReadsOf;
    LostWriteScopes(avail, more);
  }

  lemma LostWriteScopes(avail: set<Key>, more: set<Key>)
    requires avail == {R} && more == {R, API}
    requires WellFormed(DECLARE, avail) && WellFormed(CREATE, more) && WellFormed(REOPEN, more) && WellFormed(REGISTER_LATER, more)
    ensures IsFunction(LOST_WRITE, [R], map[R := SEED])
  {
    assert KeySet([R]) == avail && KeySet([API]) == {API} && KeySet([]) == {};
    assert avail + {API} == more && more + {} == more && avail + {} == avail;
    var rest3 := Cons(REGISTER_LATER, Nil);
    var rest2 := Cons(REOPEN, rest3);
    var rest1 := Cons(CREATE, rest2);
    assert WellFormedIn(rest3, 20, 40, more);
    assert WellFormedIn(rest2, 15, 40, more);
    assert WellFormedIn(rest1, 4, 40, more);
    assert WellFormedIn(LOST_WRITE.body, 1, 40, avail) && WellFormedIn(Nil, 1, 40, avail);
    assert DeclaredIn(rest3) == {} && DeclaredIn(rest2) == {} && DeclaredIn(rest1) == {} && DeclaredIn(LOST_WRITE.body) == {API};
    assert AreStatements(Nil) && AreStatements(rest3);
    assert AreStatements(rest2);
    assert AreStatements(rest1);
    assert AreStatements(LOST_WRITE.body);
    assert WellFormed(LOST_WRITE, avail);
  }

  lemma LiteralWalked(ws: set<Site>, t: Tracker)
    requires t.top.Push? && t.top.frame == NewFrame(LOST_WRITE, map[]) && t.top.parent.Bottom? && t.captured == {}
    requires t.top.parent.frame.values == map[R := SEED]
    ensures Walk(ws, LITERAL, t).t == t
  {
    var e := Enter(t, LITERAL);
    assert e.top.frame.values == map[] && e.top.parent == t.top;
    var i := Enter(e, INNER);
    assert i.top.frame.values == map[] && i.top.parent == e.top;
    assert LookupFrom(ws, t.top.parent, API, true) == None && LookupFrom(ws, t.top.parent, API, false) == None;
    assert LookupFrom(ws, t.top, API, true) == None && LookupFrom(ws, t.top, API, false) == None;
    assert LookupFrom(ws, e.top, API, false) == None;
    assert Lookup(ws, i, API) == None;
    assert WalkIn(ws, Nil, i).t == i && WalkIn(ws, Nil, e).t == e;
    assert WRITE.targets[1..] == [];
    assert WriteTargets(ws, i, i, 8, []) == i;
    assert Walk(ws, WRITE, i).t == i;
    assert WalkIn(ws, INNER.body, i).t == i;
    assert Outward(i.top.frame) == {} && Leave(i) == e;
    assert WalkIn(ws, LITERAL.body, e).t == e;
    assert Outward(e.top.frame) == {} && Leave(e) == t;
  }

  /** Neither the declaration nor the call with the literal leaves a trace. */
  lemma QuietWalked(ws: set<Site>, t: Tracker)
    requires t.top.Push? && t.top.frame == NewFrame(LOST_WRITE, map[]) && t.top.parent.Bottom? && t.captured == {}
    requires t.top.parent.frame.values == map[R := SEED]
    ensures Walk(ws, DECLARE, t).t == t && Walk(ws, CREATE, t).t == t
  {
    assert WalkIn(ws, Nil, t).t == t && WriteTargets(ws, t, t, 2, []) == t;
    LiteralWalked(ws, t);
    assert WalkIn(ws, CREATE.inner, t).t == t;
  }

  lemma LostWriteAnalyzed()
    ensures Registration(21, API, Some(X)) in Analyzed(LOST_WRITE, [R], map[R := SEED])
  {
    var body, ws, t := LOST_WRITE, Sites(LOST_WRITE), Inside(LOST_WRITE, map[R := SEED]);
    AnalyzedInside(body, map[R := SEED]);
    assert t.top.frame.values == map[];
    QuietWalked(ws, t);
    assert LookupFrom(ws, t.top.parent, R, false) == Some(SEED);
    assert Lookup(ws, t, R) == Some(SEED) && "" + "/x" == "/x";
    GroupWalked(ws, REOPEN, t);
    var u := Walk(ws, REOPEN, t).t;
    assert Lookup(ws, u, API) == Some(X);
    RegisterWalked(ws, REGISTER_LATER, u);
    hide Lookup, LookupFrom, Walk, Sites, SitesIn, Enter, Leave, RhsBinding;
    var rest3 := Cons(REGISTER_LATER, Nil);
    var rest2 := Cons(REOPEN, rest3);
    var rest1 := Cons(CREATE, rest2);
    assert WalkIn(ws, rest2, t).log == Walk(ws, REOPEN, t).log + WalkIn(ws, rest3, u).log;
    assert WalkIn(ws, rest1, t).log == Walk(ws, CREATE, t).log + WalkIn(ws, rest2, t).log;
    assert WalkIn(ws, body.body, t).log == Walk(ws, DECLARE, t).log + WalkIn(ws, rest1, t).log;
  }

  lemma LateWrite(env: Env, st: State)
    requires API in env && env[API] < |st.cells|
    ensures RunIn(LITERAL.body, Step(Plain(Step(Plain(Done), Done)), Done), env, st).st == Store(env, st, API, Other)
  {
    var stored := Store(env, st, API, Other);
    assert RunIn(Nil, Done, env, st) == Outcome(env, st, true);
    assert Allocate([], [], env, st) == (env, st);
    var values := EvaluateAll(WRITE.targets, env, st, [Other]);
    assert values == [Other] && values[1..] == [] && WRITE.targets[1..] == [];
    assert StoreAll([], env, stored, []) == stored;
    assert StoreAll(WRITE.targets, env, st, values) == stored;
    assert Run(WRITE, Plain(Done), env, st) == Outcome(env, stored, true);
    assert RunIn(Nil, Done, env, stored) == Outcome(env, stored, true);
    assert RunIn(INNER.body, Step(Plain(Done), Done), env, st).st == stored;
    assert Run(INNER, Plain(Step(Plain(Done), Done)), env, st).st == stored;
    assert RunIn(LITERAL.body, Step(Plain(Step(Plain(Done), Done)), Done), env, st).st == stored;
  }

  lemma DeclareRun(env: Env, st: State)
    ensures Run(DECLARE, Plain(Done), env, st) == Outcome(env[API := |st.cells|], st.(cells := st.cells + [Cell(API, Other)]), true)
  {
    AllocateOne(API, env, st);
    var env1, st1 := env[API := |st.cells|], st.(cells := st.cells + [Cell(API, Other)]);
    assert RunIn(Nil, Done, env, st) == Outcome(env, st, true);
    assert StoreAll([], env1, st1, []) == st1;
    assert EvaluateAll([], env, st, [Other]) == [];
  }

  lemma CreateRun(env: Env, st: State)
    ensures Run(CREATE, Choice(Step(Plain(Done), Done), Done, End, [], false), env, st)
            == Outcome(env, st.(pool := st.pool + [Closure(LITERAL, env)]), true)
  {
    var made := st.(pool := st.pool + [Closure(LITERAL, env)]);
    assert RunIn(Nil, Done, env, made) == Outcome(env, made, true);
    assert RunIn(CREATE.inner, Step(Plain(Done), Done), env, st) == Outcome(env, made, true);
  }

  /** The literal is called, and what it wrote is registered on. */
  lemma LateCallRun(env: Env, st: State)
    requires API in env && env[API] < |st.cells| && st.pool == [Closure(LITERAL, env)]
    ensures Observation(21, API, Other) in RunIn(Cons(REGISTER_LATER, Nil), LATE_CALL.next.next.next, env, st).st.seen
  {
    assert Allocate([], [], env, st) == (env, st);
    LateWrite(env, st);
    var stored := Store(env, st, API, Other);
    var o := Run(REGISTER_LATER, Plain(Done), env, stored);
    assert RunIn(Nil, Done, env, stored) == Outcome(env, stored, true);
    assert RunIn(Nil, Done, o.env, o.st).st == o.st;
    assert RunIn(Cons(REGISTER_LATER, Nil), Step(Plain(Done), Done), env, stored).st == o.st;
  }

  lemma LostWriteRuns()
    ensures Observation(21, API, Other) in Observed(LOST_WRITE, [R], [Registrar("")], Step(Plain(LATE_CALL), Done))
  {
    var env, st := map[R := 0], State([Cell(R, Registrar(""))], [], []);
    ObservedInside(LOST_WRITE, Registrar(""), LATE_CALL);
    var env1, st1 := env[API := 1], st.(cells := st.cells + [Cell(API, Other)]);
    DeclareRun(env, st);
    var st2 := st1.(pool := [Closure(LITERAL, env1)]);
    assert st1.pool + [Closure(LITERAL, env1)] == st2.pool;
    CreateRun(env1, st1);

    assert "" + "/x" == "/x" && Read(env1, st2, R) == Registrar("");
    assert Allocate([], [], env1, st2) == (env1, st2);
    GroupRun(REOPEN, env1, st2, Registrar("/x"));
    var st3 := Store(env1, st2, API, Registrar("/x"));
    LateCallRun(env1, st3);
    hide Read, Evaluate, EvaluateAll, Store, StoreAll, Allocate;
    var rest3 := Cons(REGISTER_LATER, Nil);
    var rest2 := Cons(REOPEN, rest3);
    var rest1 := Cons(CREATE, rest2);
    var end := RunIn(rest3, LATE_CALL.next.next.next, env1, st3).st;
    assert RunIn(rest2, LATE_CALL.next.next, env1, st2).st == end;
    assert RunIn(rest1, LATE_CALL.next, env1, st1).st == end;
    assert RunIn(LOST_WRITE.body, LATE_CALL, env, st).st == end;
  }

  /** The analysis never learns that the literal reassigns it. */
  lemma LostWriteMisread()
    ensures IsFunction(LOST_WRITE, [R], map[R := SEED]) && Handed([R], map[R := SEED], [Registrar("")])
    ensures Misread(LOST_WRITE, [R], map[R := SEED], [Registrar("")], Step(Plain(LATE_CALL), Done))
  {
    LostWriteWellFormed();
    LostWriteAnalyzed();
    LostWriteRuns();
  }
}
