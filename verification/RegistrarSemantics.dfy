/**
 What the code does when it runs.  A plan settles everything the analysis
 cannot know: which branch a conditional takes, how often and in which order
 the parts of a loop run, where a run stops early, when each function literal
 created so far is called and with what, and every value not built from a
 known registrar by Group.  Variables live in cells, so a function literal and
 its surroundings share the variables it captures, and each iteration of a
 loop has variables of its own.
 */
module RegistrarSemantics {
  import opened Wrappers
  import opened RegistrarSyntax

  datatype Value = Registrar(prefix: string) | Other

  datatype Cell = Cell(owner: Key, value: Value)

  type Env = map<Key, nat>

  datatype Closure = Closure(lit: Node, env: Env)

  /** The registrar a route registration at pos was handed. */
  datatype Observation = Observation(pos: Pos, key: Key, value: Value)

  datatype State = State(cells: seq<Cell>, pool: seq<Closure>, seen: seq<Observation>)

  /** The decisions of one run of a list of nodes; Done stops it. */
  datatype Plan =
    | Done
    | Invoke(target: nat, args: seq<Value>, body: Plan, next: Plan)
    | Step(choice: Choice, next: Plan)

  /**
   The decisions of one run of a node: its expressions or header, its body, the
   alternatives taken, the values of its opaque expressions, and whether a
   switch, select or loop absorbs a run that stopped inside it.
   */
  datatype Choice = Choice(head: Plan, main: Plan, picks: Picks, values: seq<Value>, absorbs: bool)

  datatype Picks = End | Pick(which: nat, renew: bool, values: seq<Value>, plan: Plan, more: Picks)

  datatype Outcome = Outcome(env: Env, st: State, normal: bool)

  function ValueAt(values: seq<Value>, i: nat): Value {
    if i < |values| then values[i] else Other
  }

  function Read(env: Env, st: State, k: Key): Value {
    if k in env && env[k] < |st.cells| then st.cells[env[k]].value else Other
  }

  /** Registrar.Group appends its argument to the registrar's own prefix. */
  function Evaluate(rhs: Rhs, env: Env, st: State, unknown: Value): Value {
    match rhs
    case Group(parent, arg) =>
      var p := Read(env, st, parent);
      if p.Registrar? && arg.Some? then Registrar(p.prefix + arg.value) else unknown
    case Copy(source) => Read(env, st, source)
    case Opaque => unknown
  }

  function EvaluateAll(targets: seq<Target>, env: Env, st: State, values: seq<Value>): (r: seq<Value>)
    ensures |r| == |targets|
  {
    seq(|targets|, i requires 0 <= i < |targets| => Evaluate(targets[i].rhs, env, st, ValueAt(values, i)))
  }

  function Store(env: Env, st: State, k: Key, v: Value): State {
    if k in env && env[k] < |st.cells|
    then st.(cells := st.cells[env[k] := st.cells[env[k]].(value := v)])
    else st
  }

  function StoreAll(targets: seq<Target>, env: Env, st: State, values: seq<Value>): State
    requires |values| == |targets|
  {
    if targets == [] then st
    else StoreAll(targets[1..], env, Store(env, st, targets[0].key, values[0]), values[1..])
  }

  /** A cell of its own for each key. */
  function Allocate(keys: seq<Key>, values: seq<Value>, env: Env, st: State): (Env, State)
    decreases |keys|
  {
    if keys == [] then (env, st)
    else
      Allocate(keys[1..], if values == [] then [] else values[1..],
               env[keys[0] := |st.cells|],
               st.(cells := st.cells + [Cell(keys[0], ValueAt(values, 0))]))
  }

  function Current(keys: seq<Key>, env: Env, st: State): seq<Value> {
    seq(|keys|, i requires 0 <= i < |keys| => Read(env, st, keys[i]))
  }

  /**
   The cells an iteration starts with: a three-clause loop may copy its
   variables into new ones, a range clause always makes new ones.
   */
  function Renew(n: Node, renew: bool, values: seq<Value>, env: Env, st: State): (Env, State)
    requires n.Scope?
  {
    if n.kind.RangeK? then Allocate(n.declares, values, env, st)
    else if renew then Allocate(n.declares, Current(n.declares, env, st), env, st)
    else (env, st)
  }

  /** Where the variables an expression names are read: arguments that run nothing leave them as they were. */
  function ReadAt(inner: Nodes, before: State, after: State): State {
    if AreLiterals(inner) then before else after
  }

  function RunIn(ns: Nodes, plan: Plan, env: Env, st: State): Outcome
    decreases plan, 0
  {
    match plan
    case Done => Outcome(env, st, ns.Nil?)
    case Invoke(target, args, body, next) =>
      if target < |st.pool| && st.pool[target].lit.Scope? then
        var c := st.pool[target];
        var (callEnv, callSt) := Allocate(c.lit.declares, args, c.env, st);
        RunIn(ns, next, env, RunIn(c.lit.body, body, callEnv, callSt).st)
      else RunIn(ns, next, env, st)
    case Step(choice, next) =>
      match ns
      case Nil => Outcome(env, st, true)
      case Cons(head, tail) =>
        var o := Run(head, choice, env, st);
        if o.normal then RunIn(tail, next, o.env, o.st) else o
  }

  function Run(n: Node, choice: Choice, env: Env, st: State): Outcome
    decreases choice
  {
    match n
    case Call(pos, _, registrar, inner) =>
      var o := RunIn(inner, choice.head, env, st);
      if o.normal && registrar.Some?
      then Outcome(env, o.st.(seen := o.st.seen + [Observation(pos, registrar.value, Read(env, ReadAt(inner, st, o.st), registrar.value))]), true)
      else Outcome(env, o.st, o.normal)
    case Assign(_, _, decls, targets, inner) =>
      var o := RunIn(inner, choice.head, env, st);
      if o.normal then
        var values := EvaluateAll(targets, env, ReadAt(inner, st, o.st), choice.values);
        var (env', st') := Allocate(decls, [], env, o.st);
        Outcome(env', StoreAll(targets, env', st', values), true)
      else Outcome(env, o.st, false)
    case Scope(kind, _, _, _, header, body) =>
      if kind.LitK? then Outcome(env, st.(pool := st.pool + [Closure(n, env)]), true)
      else
        var o := RunIn(header, choice.head, env, st);
        if !o.normal then Outcome(env, o.st, false)
        else if IsLoop(kind) then
          var s := RunLoop(n, choice.picks, o.env, o.st);
          Outcome(env, s, choice.absorbs)
        else if IsBranching(kind) then
          if choice.picks.End? then Outcome(env, o.st, true)
          else
            var b := RunBranch(body, choice.picks.which, choice.picks, o.env, o.st);
            Outcome(env, b.st, b.normal)
        else
          var b := RunIn(body, choice.main, o.env, o.st);
          Outcome(env, b.st, b.normal || (choice.absorbs && (kind.SwitchK? || kind.SelectK?)))
  }

  /**
   The parts of a loop, any number of times in any order.  What a range clause
   declares belongs to one iteration alone.
   */
  function RunLoop(n: Node, picks: Picks, env: Env, st: State): State
    requires n.Scope?
    decreases picks
  {
    match picks
    case End => st
    case Pick(which, renew, values, plan, more) =>
      var (env', st') := Renew(n, renew, values, env, st);
      RunLoop(n, more, if n.kind.RangeK? then env else env', RunPart(n.body, which, plan, env', st'))
  }

  function RunPart(parts: Nodes, which: nat, plan: Plan, env: Env, st: State): State
    decreases plan, 1, parts
  {
    match parts
    case Nil => st
    case Cons(head, tail) =>
      if which == 0 then RunIn(Cons(head, Nil), plan, env, st).st
      else RunPart(tail, which - 1, plan, env, st)
  }

  /**
   The alternative picked, after skipping some, then the next ones for as long
   as each falls through.
   */
  function RunBranch(alternatives: Nodes, skip: nat, picks: Picks, env: Env, st: State): Outcome
    decreases picks, alternatives
  {
    match picks
    case End => Outcome(env, st, false)
    case Pick(_, _, _, plan, more) =>
      match alternatives
      case Nil => Outcome(env, st, true)
      case Cons(head, tail) =>
        if skip > 0 then RunBranch(tail, skip - 1, picks, env, st)
        else
          var o := RunIn(Cons(head, Nil), plan, env, st);
          if o.normal && head.Scope? && head.kind.ClauseK? && head.kind.falls
          then RunBranch(tail, 0, more, env, o.st)
          else Outcome(env, o.st, o.normal)
  }
}
