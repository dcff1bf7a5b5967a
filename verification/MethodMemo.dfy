/**
 The method-set walk as the analyzer runs it, with its memo: a set computed
 without stopping at an open type is kept, and gives the same answer on every
 later path.
 */
module MethodMemo {
  import opened Wrappers
  import opened MethodSets

  // ----- types whose unfolding is finite

  /** c is named by t's declaration, as an embedded field or as its target. */
  predicate IsChild(p: Program, t: TypeKey, c: TypeKey) {
    && t in p.decls
    && match p.decls[t]
       case Struct(fields) => exists f <- fields :: f.Embed? && f.target == Local(c)
       case Names(target, _) => target == Local(c)
       case Other => false
  }

  predicate IsPath(p: Program, s: seq<TypeKey>) {
    forall i | 0 < i < |s| :: IsChild(p, s[i - 1], s[i])
  }

  ghost predicate Reaches(p: Program, t: TypeKey, v: TypeKey) {
    exists s: seq<TypeKey> :: |s| > 0 && s[0] == t && s[|s| - 1] == v && IsPath(p, s)
  }

  /** No path from t is longer than n. */
  ghost predicate Bounded(p: Program, t: TypeKey, n: nat)
    decreases n
  {
    t in p.decls ==> n > 0 && forall c | IsChild(p, t, c) :: Bounded(p, c, n - 1)
  }

  ghost predicate Finite(p: Program, t: TypeKey) {
    exists n: nat :: Bounded(p, t, n)
  }

  lemma {:induction false} BoundedMore(p: Program, t: TypeKey, n: nat, m: nat)
    requires Bounded(p, t, n) && n <= m
    ensures Bounded(p, t, m)
    decreases n
  {
    if t in p.decls {
      forall c | IsChild(p, t, c) ensures Bounded(p, c, m - 1) {
        BoundedMore(p, c, n - 1, m - 1);
      }
    }
  }

  lemma {:induction false} BoundedAlong(p: Program, s: seq<TypeKey>, n: nat)
    requires |s| > 0 && IsPath(p, s) && Bounded(p, s[0], n)
    ensures |s| - 1 <= n && Bounded(p, s[|s| - 1], n - (|s| - 1))
    decreases |s|
  {
    if |s| > 1 {
      assert IsChild(p, s[1 - 1], s[1]);
      assert IsPath(p, s[1..]) by {
        forall i | 0 < i < |s[1..]| ensures IsChild(p, s[1..][i - 1], s[1..][i]) {
          assert IsChild(p, s[(i + 1) - 1], s[i + 1]);
        }
      }
      BoundedAlong(p, s[1..], n - 1);
    }
  }

  /** A type whose unfolding is finite is on no cycle. */
  lemma {:induction false} NoReturn(p: Program, s: seq<TypeKey>, n: nat)
    requires |s| > 1 && IsPath(p, s) && s[0] == s[|s| - 1] && Bounded(p, s[0], n)
    ensures false
    decreases n
  {
    BoundedAlong(p, s, n);
    NoReturn(p, s, n - (|s| - 1));
  }

  lemma PathJoin(p: Program, s: seq<TypeKey>, r: seq<TypeKey>)
    requires |s| > 0 && |r| > 0 && IsPath(p, s) && IsPath(p, r) && s[|s| - 1] == r[0]
    ensures IsPath(p, s + r[1..])
  {
    var q := s + r[1..];
    forall i | 0 < i < |q| ensures IsChild(p, q[i - 1], q[i]) {
      if i < |s| {
        assert IsChild(p, s[i - 1], s[i]);
      } else {
        assert IsChild(p, r[(i - |s| + 1) - 1], r[i - |s| + 1]);
      }
    }
  }

  ghost predicate ReachesNone(p: Program, t: TypeKey, open: seq<TypeKey>) {
    forall v <- open :: !Reaches(p, t, v)
  }

  /** What leads to a type with a finite unfolding is not met below it. */
  lemma PathIsAbove(p: Program, open: seq<TypeKey>, t: TypeKey)
    requires Finite(p, t) && IsPath(p, open + [t])
    ensures ReachesNone(p, t, open)
  {
    var n: nat :| Bounded(p, t, n);
    forall v | v in open ensures !Reaches(p, t, v) {
      if Reaches(p, t, v) {
        var s: seq<TypeKey> :| |s| > 0 && s[0] == t && s[|s| - 1] == v && IsPath(p, s);
        var i :| 0 <= i < |open| && open[i] == v;
        var back := (open + [t])[i..];
        forall j | 0 < j < |back| ensures IsChild(p, back[j - 1], back[j]) {
          assert IsChild(p, (open + [t])[(i + j) - 1], (open + [t])[i + j]);
        }
        PathJoin(p, s, back);
        NoReturn(p, s + back[1..], n);
      }
    }
  }

  lemma ChildReachesNone(p: Program, t: TypeKey, c: TypeKey, open: seq<TypeKey>, n: nat)
    requires Bounded(p, t, n) && IsChild(p, t, c) && ReachesNone(p, t, open)
    ensures ReachesNone(p, c, open + [t])
  {
    forall v | v in open + [t] ensures !Reaches(p, c, v) {
      if Reaches(p, c, v) {
        var s: seq<TypeKey> :| |s| > 0 && s[0] == c && s[|s| - 1] == v && IsPath(p, s);
        PathJoin(p, [t, c], s);
        var q := [t, c] + s[1..];
        assert q[0] == t && q[|q| - 1] == v;
        if v == t {
          NoReturn(p, q, n);
        } else {
          assert Reaches(p, t, v);
        }
      }
    }
  }

  lemma ReachesItself(p: Program, t: TypeKey)
    ensures Reaches(p, t, t)
  {
    assert IsPath(p, [t]);
  }

  // ----- with a finite unfolding, what is open above makes no difference

  lemma {:induction false} WalkForgets(p: Program, t: TypeKey, keep: bool, open: seq<TypeKey>, n: nat)
    requires Bounded(p, t, n) && ReachesNone(p, t, open)
    ensures Walk(p, t, keep, open) == Walk(p, t, keep, [])
    decreases n, 2
  {
    ReachesItself(p, t);
    assert t !in open;
    if t in p.decls {
      RhsForgets(p, t, keep, open, n);
      RhsForgets(p, t, keep, [], n);
      OpeningShrinks(p, open, t);
    }
  }

  lemma {:induction false} RhsForgets(p: Program, t: TypeKey, keep: bool, open: seq<TypeKey>, n: nat)
    requires Bounded(p, t, n) && ReachesNone(p, t, open) && t in p.decls
    ensures WalkRhs(p, p.decls[t], keep, open + [t]) == WalkRhs(p, p.decls[t], keep, [])
    decreases n, 1
  {
    match p.decls[t]
    case Struct(fields) => EmbedsForget(p, t, fields, open, n);
    case Names(target, alias) =>
      if target.Local? {
        assert IsChild(p, t, target.key);
        ChildReachesNone(p, t, target.key, open, n);
        WalkForgets(p, target.key, keep && alias, open + [t], n - 1);
      }
      assert WalkTarget(p, target, keep && alias, open + [t]) == WalkTarget(p, target, keep && alias, []);
    case Other =>
  }

  lemma {:induction false} EmbedsForget(p: Program, t: TypeKey, fields: seq<Field>, open: seq<TypeKey>, n: nat)
    requires Bounded(p, t, n) && ReachesNone(p, t, open) && t in p.decls
    requires forall f <- fields :: f.Embed? && f.target.Local? ==> IsChild(p, t, f.target.key)
    ensures WalkEmbeds(p, fields, open + [t]) == WalkEmbeds(p, fields, [])
    decreases n, 0, |fields|
  {
    if fields != [] {
      var f := fields[|fields| - 1];
      EmbedsForget(p, t, fields[..|fields| - 1], open, n);
      if f.Embed? && f.target.Local? {
        assert f in fields;
        ChildReachesNone(p, t, f.target.key, open, n);
        WalkForgets(p, f.target.key, true, open + [t], n - 1);
      }
    }
  }

  /** On any path that leads to it, a type with a finite unfolding has the method set it has on none. */
  lemma PathIrrelevant(p: Program, t: TypeKey, keep: bool, open: seq<TypeKey>)
    requires Finite(p, t) && IsPath(p, open + [t])
    ensures Walk(p, t, keep, open) == Walk(p, t, keep, [])
  {
    var n: nat :| Bounded(p, t, n);
    PathIsAbove(p, open, t);
    WalkForgets(p, t, keep, open, n);
  }

  lemma {:induction false} CommonBound(p: Program, fields: seq<Field>) returns (n: nat)
    requires forall f <- fields :: f.Embed? && f.target.Local? ==> Finite(p, f.target.key)
    ensures forall f <- fields :: f.Embed? && f.target.Local? ==> Bounded(p, f.target.key, n)
    decreases |fields|
  {
    n := 0;
    if fields != [] {
      var f := fields[|fields| - 1];
      var m := CommonBound(p, fields[..|fields| - 1]);
      var k: nat := 0;
      if f.Embed? && f.target.Local? {
        assert f in fields;
        k :| Bounded(p, f.target.key, k);
      }
      n := if m < k then k else m;
      forall g | g in fields && g.Embed? && g.target.Local? ensures Bounded(p, g.target.key, n) {
        if g in fields[..|fields| - 1] {
          BoundedMore(p, g.target.key, m, n);
        } else {
          assert g == f;
          BoundedMore(p, g.target.key, k, n);
        }
      }
    }
  }

  /** A type all of whose parts have finite unfoldings has one. */
  lemma PartsAreFinite(p: Program, t: TypeKey)
    requires forall c | IsChild(p, t, c) :: Finite(p, c)
    ensures Finite(p, t)
  {
    if t !in p.decls {
      assert Bounded(p, t, 0);
    } else if p.decls[t].Struct? {
      forall f | f in p.decls[t].fields && f.Embed? && f.target.Local? ensures Finite(p, f.target.key) {
        assert IsChild(p, t, f.target.key);
      }
      var n := CommonBound(p, p.decls[t].fields);
      assert Bounded(p, t, n + 1);
    } else if p.decls[t].Names? && p.decls[t].target.Local? {
      assert IsChild(p, t, p.decls[t].target.key);
      var n: nat :| Bounded(p, p.decls[t].target.key, n);
      assert Bounded(p, t, n + 1);
    } else {
      assert Bounded(p, t, 1);
    }
  }

  // ----- the maps, filled in loops

  /** The loop behind Over: entries of ms are never replaced. */
  method AddDeeper(ms: MethodSet, deeper: MethodSet) returns (out: MethodSet)
    ensures out == Over(ms, deeper)
  {
    out := ms;
    var left := deeper.Keys;
    while left != {}
      invariant left <= deeper.Keys
      invariant out == (map m | m in deeper && m !in left :: deeper[m]) + ms
      decreases left
    {
      var m :| m in left;
      if m !in ms {
        out := out[m := deeper[m]];
      }
      left := left - {m};
    }
  }

  function Folded(out: MethodSet, em: EmbedMethods, m: Method): Entry
    requires m in em.methods
  {
    if m in out then Better(out[m], Candidate(em.methods[m], em)) else Candidate(em.methods[m], em)
  }

  /** Folds one embedded field's methods into what the others promote. */
  method FoldEmbed(out: MethodSet, em: EmbedMethods) returns (r: MethodSet)
    ensures r == AddEmbed(out, em)
  {
    r := out;
    var left := em.methods.Keys;
    while left != {}
      invariant left <= em.methods.Keys
      invariant r.Keys == out.Keys + (em.methods.Keys - left)
      invariant forall m <- r :: r[m] == if m in left || m !in em.methods then out[m] else Folded(out, em, m)
      decreases left
    {
      var m :| m in left;
      var cand := Candidate(em.methods[m], em);
      if m !in r || cand.depth < r[m].depth {
        r := r[m := cand];
      } else if cand.depth == r[m].depth {
        r := r[m := Entry(cand.depth, false, true, false, "", "")];
      }
      left := left - {m};
    }
  }

  method PromoteAll(embeds: seq<EmbedMethods>) returns (out: MethodSet)
    ensures out == Promote(embeds)
  {
    out := map[];
    var i := 0;
    while i < |embeds|
      invariant 0 <= i <= |embeds| && out == Promote(embeds[..i])
    {
      out := FoldEmbed(out, embeds[i]);
      assert embeds[..i + 1][..i] == embeds[..i];
      i := i + 1;
    }
    assert embeds[..i] == embeds;
  }

  // ----- the walk, with its memo

  class MethodWalker {
    const p: Program
    var memo: map<(TypeKey, bool), MethodSet>
    var cuts: nat
    var walks: nat

    /** Every set kept is the one its type has on no path at all. */
    ghost predicate Valid()
      reads this
    {
      forall q <- memo :: Finite(p, q.0) && memo[q] == Walk(p, q.0, q.1, [])
    }

    constructor (p: Program)
      ensures Valid() && this.p == p && memo == map[] && cuts == 0
    {
      this.p := p;
      memo := map[];
      cuts := 0;
      walks := 0;
    }

    /** The method set of t on the path open, whatever the memo holds. */
    method MethodSetOf(t: TypeKey, keep: bool, open: seq<TypeKey>) returns (ms: MethodSet)
      requires Valid() && IsPath(p, open + [t])
      modifies this
      ensures Valid() && ms == Walk(p, t, keep, open)
      ensures old(cuts) <= cuts && (cuts == old(cuts) ==> Finite(p, t))
      decreases Unopened(p, open), 0
    {
      if t in open {
        cuts := cuts + 1;
        return map[];
      }
      if (t, keep) in memo {
        PathIrrelevant(p, t, keep, open);
        return memo[(t, keep)];
      }
      var before := cuts;
      ms := ComputeMethodSet(t, keep, open);
      if cuts == before {
        PathIrrelevant(p, t, keep, open);
        memo := memo[(t, keep) := ms];
      }
    }

    method ComputeMethodSet(t: TypeKey, keep: bool, open: seq<TypeKey>) returns (ms: MethodSet)
      requires Valid() && t !in open && IsPath(p, open + [t])
      modifies this
      ensures Valid() && ms == Walk(p, t, keep, open)
      ensures old(cuts) <= cuts && (cuts == old(cuts) ==> Finite(p, t))
      decreases Unopened(p, open), 0, 0
    {
      walks := walks + 1;
      var own := if keep then DeclaredOn(p, t) else map[];
      if t !in p.decls {
        PartsAreFinite(p, t);
        return own;
      }
      OpeningShrinks(p, open, t);
      var deeper: MethodSet;
      match p.decls[t] {
        case Struct(fields) => deeper := PromotedMethods(t, fields, open + [t]);
        case Names(target, alias) => deeper := TargetMethodSet(t, target, keep && alias, open + [t]);
        case Other => deeper := map[];
      }
      if cuts == old(cuts) {
        PartsAreFinite(p, t);
      }
      ms := AddDeeper(own, deeper);
    }

    lemma PathGoesOn(open: seq<TypeKey>, t: TypeKey, c: TypeKey)
      requires IsPath(p, open) && |open| > 0 && open[|open| - 1] == t && IsChild(p, t, c)
      ensures IsPath(p, open + [c])
    {
      var s := open + [c];
      forall i | 0 < i < |s| ensures IsChild(p, s[i - 1], s[i]) {
        if i < |open| {
          assert IsChild(p, open[i - 1], open[i]);
        }
      }
    }

    /** The method set of a type t's declaration names. */
    method TargetMethodSet(t: TypeKey, target: Target, keep: bool, open: seq<TypeKey>) returns (ms: MethodSet)
      requires Valid() && IsPath(p, open) && |open| > 0 && open[|open| - 1] == t
      requires target.Local? ==> IsChild(p, t, target.key)
      modifies this
      ensures Valid() && ms == WalkTarget(p, target, keep, open)
      ensures old(cuts) <= cuts && (cuts == old(cuts) && target.Local? ==> Finite(p, target.key))
      decreases Unopened(p, open), 1
    {
      match target {
        case Local(key) =>
          PathGoesOn(open, t, key);
          ms := MethodSetOf(key, keep, open);
        case WellKnown(name, methods) =>
          ms := if keep then map m | m in methods :: Entry(0, true, false, false, name, "") else map[];
        case Unread =>
          ms := map[];
      }
    }

    /** What the embedded fields of t's struct promote, under the names its fields take. */
    method PromotedMethods(t: TypeKey, fields: seq<Field>, open: seq<TypeKey>) returns (ms: MethodSet)
      requires Valid() && IsPath(p, open) && |open| > 0 && open[|open| - 1] == t
      requires t in p.decls && p.decls[t] == Struct(fields)
      modifies this
      ensures Valid() && ms == WalkRhs(p, Struct(fields), false, open)
      ensures old(cuts) <= cuts && (cuts == old(cuts) ==> forall c | IsChild(p, t, c) :: Finite(p, c))
      decreases Unopened(p, open), 2
    {
      var embeds: seq<EmbedMethods>, i := [], 0;
      while i < |fields|
        invariant 0 <= i <= |fields| && Valid() && old(cuts) <= cuts
        invariant embeds == WalkEmbeds(p, fields[..i], open)
        invariant cuts == old(cuts) ==> forall f <- fields[..i] :: f.Embed? && f.target.Local? ==> Finite(p, f.target.key)
      {
        var f := fields[i];
        assert f in fields && fields[..i + 1][..i] == fields[..i];
        if f.Embed? {
          var found := TargetMethodSet(t, f.target, true, open);
          embeds := embeds + [EmbedMethods(f.via, found, f.ptr)];
        }
        i := i + 1;
      }
      assert fields[..i] == fields;
      ms := PromoteAll(embeds);
      ms := WithFields(ms, fields);
    }
  }
}
