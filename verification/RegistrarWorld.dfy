/**
 What relates the analysis to a run: every binding it claims is the value the
 variable's cell holds, and no function literal created so far can change it.
 */
module RegistrarWorld {
  import opened Wrappers
  import opened RegistrarSyntax
  import opened RegistrarTracker
  import opened RegistrarStructure
  import opened RegistrarInvariants
  import opened RegistrarNotes
  import opened RegistrarSemantics

  /** A run's state, with the tracker's state where each function literal was created. */
  datatype World = World(st: State, snaps: seq<Tracker>)

  /** Cell l is the one env knows its variable by. */
  predicate At(env: Env, st: State, l: nat) {
    l < |st.cells| && st.cells[l].owner in env && env[st.cells[l].owner] == l
  }

  predicate EnvSane(env: Env, st: State) {
    forall k <- env :: env[k] < |st.cells| && st.cells[env[k]].owner == k
  }

  /** Some function literal created so far writes cell l. */
  predicate PoolWrites(st: State, l: nat) {
    l < |st.cells| && exists c <- st.pool :: At(c.env, st, l) && st.cells[l].owner in Writes(c.lit)
  }

  predicate Claims(ws: set<Site>, t: Tracker, k: Key) {
    IsResolved(Lookup(ws, t, k))
  }

  predicate ClaimHolds(ws: set<Site>, t: Tracker, env: Env, st: State, k: Key)
    requires EnvSane(env, st) && k in env
  {
    && (Claims(ws, t, k) ==>
          && st.cells[env[k]].value == Registrar(Lookup(ws, t, k).value.path)
          && !PoolWrites(st, env[k]))
  }

  /** Every binding claimed holds, and one a function literal writes is not claimed again where w is written. */
  predicate Live(ws: set<Site>, t: Tracker, env: Env, st: State, w: set<Key>) {
    && EnvSane(env, st)
    && (forall k <- env :: ClaimHolds(ws, t, env, st, k))
    && (forall k <- env :: k in w && PoolWrites(st, env[k]) ==> Doomed(ws, t, k))
  }

  /** The claims a function literal's body starts from. */
  function BodyStart(c: Closure, snap: Tracker): Tracker {
    if c.lit.Scope? then Enter(snap, c.lit) else snap
  }

  predicate ClosureSane(ws: set<Site>, log: seq<Entry>, c: Closure, snap: Tracker) {
    && c.lit.Scope? && c.lit.kind.LitK?
    && WellFormed(c.lit, c.env.Keys)
    && Fits(snap.top.frame.kind, c.lit)
    && Sane(ws, snap.top, c.env.Keys)
    && Sites(c.lit) <= ws
    && (forall e <- Walk(ws, c.lit, snap).log :: e in log)
  }

  predicate ClosureLive(ws: set<Site>, log: seq<Entry>, c: Closure, snap: Tracker, st: State) {
    ClosureSane(ws, log, c, snap) && Live(ws, BodyStart(c, snap), c.env, st, {})
  }

  /** What a registration was handed is what the analysis said, where it said anything. */
  predicate Explained(log: seq<Entry>, o: Observation) {
    exists e <- log ::
      && e.Registration? && e.pos == o.pos && e.key == o.key
      && (IsResolved(e.prefix) ==> o.value == Registrar(e.prefix.value.path))
  }

  predicate Sound(ws: set<Site>, log: seq<Entry>, x: World) {
    && |x.snaps| == |x.st.pool|
    && (forall i | 0 <= i < |x.snaps| :: ClosureLive(ws, log, x.st.pool[i], x.snaps[i], x.st))
    && (forall o <- x.st.seen :: Explained(log, o))
  }

  /** Some function literal created so far relies on what cell l holds. */
  predicate Frozen(ws: set<Site>, x: World, l: nat) {
    && l < |x.st.cells|
    && exists i | 0 <= i < |x.snaps| && i < |x.st.pool| ::
         At(x.st.pool[i].env, x.st, l) && Claims(ws, BodyStart(x.st.pool[i], x.snaps[i]), x.st.cells[l].owner)
  }

  predicate Unfrozen(ws: set<Site>, x: World, env: Env, w: set<Key>) {
    forall k <- env :: k in w ==> !Frozen(ws, x, env[k])
  }

  /** k is written nowhere from end on, nor in a loop or closure now open. */
  predicate Quiet(ws: set<Site>, t: Tracker, k: Key, end: Pos) {
    && !KilledWithin(ws, t.top, k)
    && (forall s <- ws :: s.key == k && k.from < s.at ==> s.at < end)
  }

  predicate Extends(a: World, b: World) {
    && |a.st.cells| <= |b.st.cells|
    && (forall l | 0 <= l < |a.st.cells| :: a.st.cells[l].owner == b.st.cells[l].owner)
    && |a.snaps| == |a.st.pool| <= |b.st.pool| == |b.snaps|
    && a.st.pool == b.st.pool[..|a.st.pool|]
    && a.snaps == b.snaps[..|a.snaps|]
  }

  /** What running code that writes w (lw inside function literals) from env may do to cell l. */
  predicate EffectAt(ws: set<Site>, t: Tracker, env: Env, w: set<Key>, lw: set<Key>, end: Pos, a: World, b: World, l: nat)
    requires l < |a.st.cells| <= |b.st.cells|
  {
    var k := a.st.cells[l].owner;
    && (a.st.cells[l].value == b.st.cells[l].value || PoolWrites(a.st, l) || (At(env, a.st, l) && k in w))
    && (PoolWrites(b.st, l) ==> PoolWrites(a.st, l) || (At(env, a.st, l) && k in lw))
    && (Frozen(ws, b, l) ==>
          Frozen(ws, a, l) || (At(env, a.st, l) && Quiet(ws, t, k, end) && (k in w || Claims(ws, t, k))))
  }

  /**
   It changes the cells it or a function literal created before writes, and
   function literals come to rely only on what nothing writes any more.
   */
  predicate Effect(ws: set<Site>, t: Tracker, env: Env, w: set<Key>, lw: set<Key>, end: Pos, a: World, b: World) {
    Extends(a, b) && forall l | 0 <= l < |a.st.cells| :: EffectAt(ws, t, env, w, lw, end, a, b, l)
  }

  /** What calling function literals may do to cell l: change it if one of them writes it. */
  predicate UndisturbedAt(ws: set<Site>, a: World, b: World, l: nat)
    requires l < |a.st.cells| <= |b.st.cells|
  {
    && (a.st.cells[l].value == b.st.cells[l].value || PoolWrites(a.st, l))
    && (PoolWrites(b.st, l) ==> PoolWrites(a.st, l))
    && (Frozen(ws, b, l) ==> Frozen(ws, a, l))
  }

  predicate Undisturbed(ws: set<Site>, a: World, b: World) {
    Extends(a, b) && forall l | 0 <= l < |a.st.cells| :: UndisturbedAt(ws, a, b, l)
  }

  /** env with new variables, each in a cell of its own. */
  predicate EnvGrew(env: Env, out: Env, decls: set<Key>, cells: nat) {
    && out.Keys == env.Keys + decls
    && (forall k <- env :: k !in decls ==> out[k] == env[k])
    && (forall k <- decls :: k in out ==> cells <= out[k])
  }

  // ----- basic facts

  lemma ExtendsKeeps(a: World, b: World, env: Env, l: nat)
    requires Extends(a, b) && l < |a.st.cells|
    ensures At(env, a.st, l) == At(env, b.st, l)
    ensures PoolWrites(a.st, l) ==> PoolWrites(b.st, l)
  {
    if PoolWrites(a.st, l) {
      var c :| c in a.st.pool && At(c.env, a.st, l) && a.st.cells[l].owner in Writes(c.lit);
      assert c in b.st.pool;
      assert At(c.env, b.st, l);
    }
  }

  lemma FrozenStays(ws: set<Site>, a: World, b: World, l: nat)
    requires Extends(a, b) && Frozen(ws, a, l)
    ensures Frozen(ws, b, l)
  {
    var i :| 0 <= i < |a.snaps| && i < |a.st.pool|
             && At(a.st.pool[i].env, a.st, l) && Claims(ws, BodyStart(a.st.pool[i], a.snaps[i]), a.st.cells[l].owner);
    assert a.st.pool[i] == b.st.pool[i] && a.snaps[i] == b.snaps[i];
    assert At(b.st.pool[i].env, b.st, l);
  }

  lemma ExtendsTransitive(a: World, b: World, c: World)
    requires Extends(a, b) && Extends(b, c)
    ensures Extends(a, c)
  {
  }

  lemma UndisturbedNothing(ws: set<Site>, a: World)
    requires |a.snaps| == |a.st.pool|
    ensures Undisturbed(ws, a, a)
  {
    assert forall l | 0 <= l < |a.st.cells| :: UndisturbedAt(ws, a, a, l);
  }

  lemma EffectNothing(ws: set<Site>, t: Tracker, env: Env, w: set<Key>, lw: set<Key>, end: Pos, a: World)
    requires |a.snaps| == |a.st.pool|
    ensures Effect(ws, t, env, w, lw, end, a, a)
  {
    assert forall l | 0 <= l < |a.st.cells| :: EffectAt(ws, t, env, w, lw, end, a, a, l);
  }

  /** Claims survive code that writes none of the variables claimed. */
  lemma LiveSurvives(ws: set<Site>, t: Tracker, env: Env, w: set<Key>, a: World, b: World)
    requires Extends(a, b) && Live(ws, t, env, a.st, w)
    requires forall k <- env :: Claims(ws, t, k) ==>
               b.st.cells[env[k]].value == a.st.cells[env[k]].value && !PoolWrites(b.st, env[k])
    requires forall k <- env :: k in w && PoolWrites(b.st, env[k]) && !PoolWrites(a.st, env[k]) ==> Doomed(ws, t, k)
    ensures Live(ws, t, env, b.st, w)
  {
    forall k | k in env ensures ClaimHolds(ws, t, env, b.st, k) {
      assert ClaimHolds(ws, t, env, a.st, k);
    }
  }

  /** An effect on cells that are not claimed leaves the claims alone. */
  lemma LiveUnder(ws: set<Site>, tx: Tracker, envx: Env, wx: set<Key>,
                  t: Tracker, env: Env, w: set<Key>, lw: set<Key>, end: Pos, a: World, b: World)
    requires Effect(ws, t, env, w, lw, end, a, b) && Live(ws, tx, envx, a.st, wx)
    requires lw <= w
    requires forall k <- envx :: At(env, a.st, envx[k]) && k in w ==> !Claims(ws, tx, k)
    requires forall k <- envx :: At(env, a.st, envx[k]) && k in lw && k in wx ==> Doomed(ws, tx, k)
    ensures Live(ws, tx, envx, b.st, wx)
  {
    forall k | k in envx
      ensures Claims(ws, tx, k) ==> b.st.cells[envx[k]].value == a.st.cells[envx[k]].value && !PoolWrites(b.st, envx[k])
      ensures k in wx && PoolWrites(b.st, envx[k]) && !PoolWrites(a.st, envx[k]) ==> Doomed(ws, tx, k)
    {
      assert ClaimHolds(ws, tx, envx, a.st, k);
      assert EffectAt(ws, t, env, w, lw, end, a, b, envx[k]);
    }
    LiveSurvives(ws, tx, envx, wx, a, b);
  }

  lemma LiveUndisturbed(ws: set<Site>, t: Tracker, env: Env, w: set<Key>, a: World, b: World)
    requires Undisturbed(ws, a, b) && Live(ws, t, env, a.st, w)
    ensures Live(ws, t, env, b.st, w)
  {
    forall k | k in env
      ensures Claims(ws, t, k) ==> b.st.cells[env[k]].value == a.st.cells[env[k]].value && !PoolWrites(b.st, env[k])
      ensures PoolWrites(b.st, env[k]) ==> PoolWrites(a.st, env[k])
    {
      assert ClaimHolds(ws, t, env, a.st, k);
      assert UndisturbedAt(ws, a, b, env[k]);
    }
    LiveSurvives(ws, t, env, w, a, b);
  }
}
