/**
 What the single steps of a run do to the world: allocating cells, storing a
 value, creating a function literal; and how effects compose.
 */
module RegistrarSteps {
  import opened Wrappers
  import opened RegistrarSyntax
  import opened RegistrarTracker
  import opened RegistrarStructure
  import opened RegistrarInvariants
  import opened RegistrarNotes
  import opened RegistrarSemantics
  import opened RegistrarWorld

  /** Two runs in a row. */
  lemma EffectThen(ws: set<Site>, t: Tracker, u: Tracker, env: Env, envu: Env,
                   w: set<Key>, lw: set<Key>, end: Pos, wu: set<Key>, lwu: set<Key>, endu: Pos,
                   a: World, b: World, c: World)
    requires Effect(ws, t, env, w, lw, end, a, b) && Effect(ws, u, envu, wu, lwu, endu, b, c)
    requires end <= endu && lw <= w
    requires forall l: nat :: l < |a.st.cells| && At(envu, b.st, l) ==> At(env, a.st, l)
    requires forall k <- env :: Quiet(ws, u, k, endu) ==> Quiet(ws, t, k, endu)
    requires forall k <- env :: Claims(ws, u, k) ==> Claims(ws, t, k) || k in w
    ensures Effect(ws, t, env, w + wu, lw + lwu, endu, a, c)
  {
    ExtendsTransitive(a, b, c);
    forall l: nat | l < |a.st.cells|
      ensures EffectAt(ws, t, env, w + wu, lw + lwu, endu, a, c, l)
    {
      assert EffectAt(ws, t, env, w, lw, end, a, b, l);
      assert EffectAt(ws, u, envu, wu, lwu, endu, b, c, l);
      assert a.st.cells[l].owner == b.st.cells[l].owner == c.st.cells[l].owner;
    }
  }

  lemma UndisturbedThen(ws: set<Site>, a: World, b: World, c: World)
    requires Undisturbed(ws, a, b) && Undisturbed(ws, b, c)
    ensures Undisturbed(ws, a, c)
  {
    ExtendsTransitive(a, b, c);
    forall l: nat | l < |a.st.cells| ensures UndisturbedAt(ws, a, c, l) {
      assert UndisturbedAt(ws, a, b, l) && UndisturbedAt(ws, b, c, l);
    }
  }

  /** Calls of function literals, then a run. */
  lemma UndisturbedThenEffect(ws: set<Site>, t: Tracker, env: Env, w: set<Key>, lw: set<Key>, end: Pos, a: World, b: World, c: World)
    requires Undisturbed(ws, a, b) && Effect(ws, t, env, w, lw, end, b, c)
    ensures Effect(ws, t, env, w, lw, end, a, c)
  {
    ExtendsTransitive(a, b, c);
    forall l: nat | l < |a.st.cells| ensures EffectAt(ws, t, env, w, lw, end, a, c, l) {
      assert UndisturbedAt(ws, a, b, l) && EffectAt(ws, t, env, w, lw, end, b, c, l);
      assert a.st.cells[l].owner == b.st.cells[l].owner;
    }
  }

  /** A run, then calls of function literals. */
  lemma EffectThenUndisturbed(ws: set<Site>, t: Tracker, env: Env, w: set<Key>, lw: set<Key>, end: Pos, a: World, b: World, c: World)
    requires Effect(ws, t, env, w, lw, end, a, b) && Undisturbed(ws, b, c) && lw <= w
    ensures Effect(ws, t, env, w, lw, end, a, c)
  {
    ExtendsTransitive(a, b, c);
    forall l: nat | l < |a.st.cells| ensures EffectAt(ws, t, env, w, lw, end, a, c, l) {
      assert EffectAt(ws, t, env, w, lw, end, a, b, l) && UndisturbedAt(ws, b, c, l);
      assert a.st.cells[l].owner == b.st.cells[l].owner;
    }
  }

  lemma EffectWidens(ws: set<Site>, t: Tracker, u: Tracker, env: Env, envu: Env,
                     w: set<Key>, lw: set<Key>, end: Pos, wu: set<Key>, lwu: set<Key>, endu: Pos,
                     a: World, b: World)
    requires Effect(ws, u, envu, wu, lwu, endu, a, b)
    requires wu <= w && lwu <= lw && endu <= end
    requires forall l: nat :: l < |a.st.cells| && At(envu, a.st, l) ==> At(env, a.st, l)
    requires forall k <- env :: Quiet(ws, u, k, endu) ==> Quiet(ws, t, k, end)
    requires forall k <- env :: Claims(ws, u, k) ==> Claims(ws, t, k) || k in w
    ensures Effect(ws, t, env, w, lw, end, a, b)
  {
    forall l: nat | l < |a.st.cells|
      ensures EffectAt(ws, t, env, w, lw, end, a, b, l)
    {
      assert EffectAt(ws, u, envu, wu, lwu, endu, a, b, l);
    }
  }

  lemma EffectLater(ws: set<Site>, t: Tracker, env: Env, w: set<Key>, lw: set<Key>, end: Pos, wu: set<Key>, lwu: set<Key>, endu: Pos, a: World, b: World)
    requires Effect(ws, t, env, wu, lwu, endu, a, b)
    requires wu <= w && lwu <= lw && endu <= end
    ensures Effect(ws, t, env, w, lw, end, a, b)
  {
    forall l: nat | l < |a.st.cells| ensures EffectAt(ws, t, env, w, lw, end, a, b, l) {
      assert EffectAt(ws, t, env, wu, lwu, endu, a, b, l);
    }
  }

  /** A run of stores on top. */
  lemma EffectThenStores(ws: set<Site>, t: Tracker, env: Env, w: set<Key>, lw: set<Key>, end: Pos, wu: set<Key>, endu: Pos,
                         a: World, b: World, c: World)
    requires Effect(ws, t, env, w, lw, end, a, b) && Extends(b, c) && end <= endu
    requires forall l | 0 <= l < |a.st.cells| ::
               b.st.cells[l].value == c.st.cells[l].value || (At(env, a.st, l) && a.st.cells[l].owner in wu)
    requires forall l | 0 <= l < |a.st.cells| :: PoolWrites(c.st, l) ==> PoolWrites(b.st, l)
    requires forall l | 0 <= l < |a.st.cells| :: Frozen(ws, c, l) ==> Frozen(ws, b, l)
    ensures Effect(ws, t, env, w + wu, lw, endu, a, c)
  {
    ExtendsTransitive(a, b, c);
    forall l: nat | l < |a.st.cells|
      ensures EffectAt(ws, t, env, w + wu, lw, endu, a, c, l)
    {
      assert EffectAt(ws, t, env, w, lw, end, a, b, l);
    }
  }

  // ----- allocating cells

  lemma {:induction false} AllocateFacts(keys: seq<Key>, values: seq<Value>, env: Env, st: State)
    requires EnvSane(env, st)
    ensures var (out, st') := Allocate(keys, values, env, st);
            && EnvSane(out, st') && EnvGrew(env, out, KeySet(keys), |st.cells|)
            && |st.cells| <= |st'.cells| && st'.cells[..|st.cells|] == st.cells
            && st'.pool == st.pool && st'.seen == st.seen
    decreases |keys|
  {
    if keys != [] {
      var env1 := env[keys[0] := |st.cells|];
      var st1 := st.(cells := st.cells + [Cell(keys[0], ValueAt(values, 0))]);
      var rest := if values == [] then [] else values[1..];
      AllocateFacts(keys[1..], rest, env1, st1);
      var (out, st') := Allocate(keys[1..], rest, env1, st1);
      assert KeySet(keys) == {keys[0]} + KeySet(keys[1..]);
      assert st'.cells[..|st.cells|] == st1.cells[..|st.cells|];
    }
  }

  /** Claims depend on the old cells alone. */
  lemma LiveSame(ws: set<Site>, t: Tracker, env: Env, w: set<Key>, a: World, b: World)
    requires Extends(a, b) && Live(ws, t, env, a.st, w)
    requires forall l | 0 <= l < |a.st.cells| :: a.st.cells[l].value == b.st.cells[l].value
    requires forall l | 0 <= l < |a.st.cells| :: PoolWrites(b.st, l) ==> PoolWrites(a.st, l)
    ensures Live(ws, t, env, b.st, w)
  {
    forall k | k in env ensures Claims(ws, t, k) ==> !PoolWrites(b.st, env[k]) {
      assert ClaimHolds(ws, t, env, a.st, k);
    }
    LiveSurvives(ws, t, env, w, a, b);
  }

  /** st is a's state with more cells. */
  predicate MoreCells(a: World, st: State) {
    && |a.snaps| == |a.st.pool|
    && |a.st.cells| <= |st.cells| && st.cells[..|a.st.cells|] == a.st.cells
    && st.pool == a.st.pool && st.seen == a.st.seen
  }

  lemma MoreCellsExtend(a: World, st: State)
    requires MoreCells(a, st)
    ensures Extends(a, World(st, a.snaps))
    ensures forall l | 0 <= l < |a.st.cells| :: st.cells[l] == a.st.cells[l]
  {
    forall l | 0 <= l < |a.st.cells| ensures a.st.cells[l] == st.cells[l] {
      assert st.cells[..|a.st.cells|][l] == a.st.cells[l];
    }
  }

  lemma PoolEnvSane(ws: set<Site>, log: seq<Entry>, a: World)
    requires Sound(ws, log, a)
    ensures forall c <- a.st.pool :: EnvSane(c.env, a.st)
  {
    forall c | c in a.st.pool ensures EnvSane(c.env, a.st) {
      var i :| 0 <= i < |a.st.pool| && a.st.pool[i] == c;
      assert ClosureLive(ws, log, a.st.pool[i], a.snaps[i], a.st);
    }
  }

  lemma MoreCellsPoolWrites(a: World, st: State, l: nat)
    requires MoreCells(a, st)
    requires forall c <- a.st.pool :: EnvSane(c.env, a.st)
    ensures PoolWrites(st, l) <==> PoolWrites(a.st, l)
  {
    var b := World(st, a.snaps);
    MoreCellsExtend(a, st);
    if PoolWrites(a.st, l) {
      ExtendsKeeps(a, b, map[], l);
    }
    if PoolWrites(st, l) {
      var c :| c in st.pool && At(c.env, st, l) && st.cells[l].owner in Writes(c.lit);
      assert EnvSane(c.env, a.st);
      assert At(c.env, a.st, l);
    }
  }

  lemma MoreCellsFrozen(ws: set<Site>, a: World, st: State, l: nat)
    requires MoreCells(a, st)
    requires forall c <- a.st.pool :: EnvSane(c.env, a.st)
    ensures Frozen(ws, World(st, a.snaps), l) <==> Frozen(ws, a, l)
  {
    var b := World(st, a.snaps);
    MoreCellsExtend(a, st);
    if Frozen(ws, a, l) {
      FrozenStays(ws, a, b, l);
    }
    if Frozen(ws, b, l) {
      var i :| 0 <= i < |b.snaps| && i < |st.pool|
               && At(st.pool[i].env, st, l) && Claims(ws, BodyStart(st.pool[i], b.snaps[i]), st.cells[l].owner);
      assert EnvSane(a.st.pool[i].env, a.st);
      assert At(a.st.pool[i].env, a.st, l);
    }
  }

  /** New cells beside the old ones disturb nothing. */
  lemma MoreCellsKeep(ws: set<Site>, log: seq<Entry>, a: World, st: State)
    requires Sound(ws, log, a) && MoreCells(a, st)
    ensures Sound(ws, log, World(st, a.snaps)) && Extends(a, World(st, a.snaps))
  {
    var b := World(st, a.snaps);
    MoreCellsExtend(a, st);
    PoolEnvSane(ws, log, a);
    forall i | 0 <= i < |b.snaps|
      ensures ClosureLive(ws, log, b.st.pool[i], b.snaps[i], b.st)
    {
      assert ClosureLive(ws, log, a.st.pool[i], a.snaps[i], a.st);
      forall l | 0 <= l < |a.st.cells| ensures PoolWrites(b.st, l) ==> PoolWrites(a.st, l) {
        MoreCellsPoolWrites(a, st, l);
      }
      LiveSame(ws, BodyStart(a.st.pool[i], a.snaps[i]), a.st.pool[i].env, {}, a, b);
    }
  }

  // ----- storing a value

  /** A store changes one cell, which no function literal relies on. */
  lemma StoreKeeps(ws: set<Site>, log: seq<Entry>, a: World, env: Env, k: Key, v: Value)
    requires Sound(ws, log, a) && EnvSane(env, a.st) && k in env
    requires !Frozen(ws, a, env[k])
    ensures var b := World(Store(env, a.st, k, v), a.snaps);
            && Sound(ws, log, b) && Extends(a, b)
            && b.st.cells[env[k]].value == v
            && (forall l | 0 <= l < |a.st.cells| && l != env[k] :: b.st.cells[l] == a.st.cells[l])
            && (forall l: nat :: PoolWrites(b.st, l) <==> PoolWrites(a.st, l))
            && (forall l: nat :: Frozen(ws, b, l) <==> Frozen(ws, a, l))
  {
    hide WellFormed, Sane, Walk, Sites, Writes, LitWrites, Lookup;
    var b := World(Store(env, a.st, k, v), a.snaps);
    assert Extends(a, b);
    assert Extends(b, a);
    forall l: nat
      ensures PoolWrites(b.st, l) <==> PoolWrites(a.st, l)
      ensures Frozen(ws, b, l) <==> Frozen(ws, a, l)
    {
      if l < |a.st.cells| {
        ExtendsKeeps(a, b, map[], l);
        ExtendsKeeps(b, a, map[], l);
      }
      if Frozen(ws, a, l) {
        FrozenStays(ws, a, b, l);
      }
      if Frozen(ws, b, l) {
        FrozenStays(ws, b, a, l);
      }
    }
    forall i | 0 <= i < |b.snaps|
      ensures ClosureLive(ws, log, b.st.pool[i], b.snaps[i], b.st)
    {
      var c, t := a.st.pool[i], BodyStart(a.st.pool[i], a.snaps[i]);
      assert ClosureLive(ws, log, c, a.snaps[i], a.st);
      forall j | j in c.env && Claims(ws, t, j)
        ensures b.st.cells[c.env[j]].value == a.st.cells[c.env[j]].value && !PoolWrites(b.st, c.env[j])
      {
        assert ClaimHolds(ws, t, c.env, a.st, j);
        assert At(c.env, a.st, c.env[j]);
        assert Frozen(ws, a, c.env[j]);
      }
      LiveSurvives(ws, t, c.env, {}, a, b);
    }
  }
}
