/**
 Where the cut is exact, and where it is not, name by name: every type of a
 graph gets the right entry for m, whatever methods are declared on the graph,
 exactly when every walk that comes back, with its methods, to a type it opened
 without them finds m shadowed there anyway.
 */
module MethodLosses {
  import opened Wrappers
  import opened MethodSets
  import opened MethodExactness

  type Graph = map<TypeKey, Rhs>
  type Methods = map<TypeKey, map<Method, Own>>

  function Bare(decls: Graph): Program {
    Program(decls, map[])
  }

  /** The walk's entry for m is the one Go's rule gives. */
  ghost predicate ExactFor(p: Program, r: TypeKey, m: Method) {
    Selects(Get(Walk(p, r, true, []), m), (d: nat) => Occurrences(p, r, true, [], m, d))
  }

  ghost predicate AlwaysExact(decls: Graph, m: Method) {
    forall r: TypeKey, methods: Methods :: ExactFor(Program(decls, methods), r, m)
  }

  /** With no method declared at all, as a field or a library type's method, m stands above e embeddings below r, or twice there. */
  ghost predicate Shadowed(decls: Graph, r: TypeKey, m: Method, e: nat) {
    || (exists d: nat | d < e :: Occurrences(Bare(decls), r, true, [], m, d) != [])
    || |Occurrences(Bare(decls), r, true, [], m, e)| >= 2
  }

  predicate OpenedWithout(os: seq<Opened>, t: TypeKey) {
    exists o <- os :: o.key == t && !o.keep
  }

  /** Wherever the walk from r comes back, with its methods, to a type opened without them, m is shadowed. */
  ghost predicate CleanFor(decls: Graph, r: TypeKey, m: Method, t: TypeKey, keep: bool, os: seq<Opened>, depth: nat)
    decreases Unopened(Bare(decls), Keys(os))
  {
    if t in Keys(os) then keep && OpenedWithout(os, t) ==> Shadowed(decls, r, m, depth)
    else if t !in decls then true
    else
      OpeningShrinks(Bare(decls), Keys(os), t);
      KeysMore(os, Opened(t, keep));
      var more := os + [Opened(t, keep)];
      match decls[t]
      case Struct(fields) => forall f <- fields :: f.Embed? && f.target.Local? ==> CleanFor(decls, r, m, f.target.key, true, more, depth + 1)
      case Names(target, alias) => target.Local? ==> CleanFor(decls, r, m, target.key, keep && alias, more, depth)
      case Other => true
  }

  ghost predicate AlwaysClean(decls: Graph, m: Method) {
    forall r: TypeKey :: CleanFor(decls, r, m, r, true, [], 0)
  }

  // ----- counting occurrences

  /** The walk meets no more than there is. */
  lemma {:induction false} MetWithin(p: Program, t: TypeKey, keep: bool, open: seq<TypeKey>, seen: seq<TypeKey>, m: Method, d: nat)
    requires forall x <- seen :: x in open
    ensures |Met(p, t, keep, open, m, d)| <= |Occurrences(p, t, keep, seen, m, d)|
    decreases Unopened(p, open), 0
  {
    if t !in open && t in p.decls && !(d == 0 && keep && OwnOccurrence(p, t, m) != []) {
      var o := Opened(t, keep);
      OpeningShrinks(p, open, t);
      OpenedUnfold(p, o, open, seen, m, d);
      match p.decls[t]
      case Struct(fields) =>
        if d > 0 {
          MetWithinBelow(p, t, |fields|, open + [t], m, d - 1);
          assert fields[..|fields|] == fields;
        }
      case Names(target, alias) =>
        NamesUnfold(p, o, open, seen, m, d);
        if target.Local? {
          MetWithin(p, target.key, keep && alias, open + [t], seen + [t], m, d);
        }
      case Other =>
    }
  }

  lemma {:induction false} MetWithinBelow(p: Program, t: TypeKey, n: nat, open: seq<TypeKey>, m: Method, d: nat)
    requires t in p.decls && p.decls[t].Struct? && n <= |p.decls[t].fields|
    ensures |MetBelow(p, p.decls[t].fields[..n], open, m, d)| <= |OccurrencesBelow(p, p.decls[t].fields[..n], m, d)|
    decreases Unopened(p, open), 1, n
  {
    if n > 0 {
      var f := p.decls[t].fields[n - 1];
      assert p.decls[t].fields[..n][..n - 1] == p.decls[t].fields[..n - 1];
      MetWithinBelow(p, t, n - 1, open, m, d);
      if f.Embed? && f.target.Local? {
        MetWithin(p, f.target.key, true, open, [], m, d);
      }
    }
  }

  /** At a type itself m stands once at most. */
  lemma {:induction false} OneAtTop(p: Program, t: TypeKey, keep: bool, seen: seq<TypeKey>, m: Method)
    ensures |Occurrences(p, t, keep, seen, m, 0)| <= 1
    decreases Unopened(p, seen)
  {
    if t !in seen && t in p.decls && p.decls[t].Names? && p.decls[t].target.Local? {
      OpeningShrinks(p, seen, t);
      OneAtTop(p, p.decls[t].target.key, keep && p.decls[t].alias, seen + [t], m);
    }
  }

  /** Declaring methods takes no occurrence away. */
  lemma {:induction false} BareWithin(decls: Graph, methods: Methods, t: TypeKey, keep: bool, seen: seq<TypeKey>, m: Method, d: nat)
    ensures |Occurrences(Bare(decls), t, keep, seen, m, d)| <= |Occurrences(Program(decls, methods), t, keep, seen, m, d)|
    decreases d, Unopened(Bare(decls), seen), 0
  {
    var b, p := Bare(decls), Program(decls, methods);
    assert Unopened(p, seen) == Unopened(b, seen);
    if t !in seen && t in decls {
      OpeningShrinks(b, seen, t);
      if d == 0 && keep && OwnOccurrence(p, t, m) != [] {
        OneAtTop(b, t, keep, seen, m);
      } else {
        match decls[t]
        case Struct(fields) =>
          if d > 0 {
            BareWithinBelow(decls, methods, t, |fields|, m, d - 1);
            assert fields[..|fields|] == fields;
          }
        case Names(target, alias) =>
          if target.Local? {
            BareWithin(decls, methods, target.key, keep && alias, seen + [t], m, d);
          }
          assert |OccurrencesAt(b, target, keep && alias, seen + [t], m, d)| <= |OccurrencesAt(p, target, keep && alias, seen + [t], m, d)|;
        case Other =>
      }
    }
  }

  lemma {:induction false} BareWithinBelow(decls: Graph, methods: Methods, t: TypeKey, n: nat, m: Method, d: nat)
    requires t in decls && decls[t].Struct? && n <= |decls[t].fields|
    ensures |OccurrencesBelow(Bare(decls), decls[t].fields[..n], m, d)| <= |OccurrencesBelow(Program(decls, methods), decls[t].fields[..n], m, d)|
    decreases d, Unopened(Bare(decls), []), 1, n
  {
    if n > 0 {
      var f := decls[t].fields[n - 1];
      assert decls[t].fields[..n][..n - 1] == decls[t].fields[..n - 1];
      BareWithinBelow(decls, methods, t, n - 1, m, d);
      if f.Embed? && f.target.Local? {
        BareWithin(decls, methods, f.target.key, true, [], m, d);
      }
    }
  }

  /** Nor does it take from what the walk meets. */
  lemma {:induction false} BareMetWithin(decls: Graph, methods: Methods, t: TypeKey, keep: bool, open: seq<TypeKey>, m: Method, d: nat)
    ensures |Met(Bare(decls), t, keep, open, m, d)| <= |Met(Program(decls, methods), t, keep, open, m, d)|
    decreases Unopened(Bare(decls), open), 0
  {
    var b, p := Bare(decls), Program(decls, methods);
    assert Unopened(p, open) == Unopened(b, open);
    if t !in open && t in decls {
      OpeningShrinks(b, open, t);
      if d == 0 && keep && OwnOccurrence(p, t, m) != [] {
        MetWithin(b, t, keep, open, [], m, d);
        OneAtTop(b, t, keep, [], m);
      } else {
        match decls[t]
        case Struct(fields) =>
          if d > 0 {
            BareMetWithinBelow(decls, methods, t, |fields|, open + [t], m, d - 1);
            assert fields[..|fields|] == fields;
          }
        case Names(target, alias) =>
          if target.Local? {
            BareMetWithin(decls, methods, target.key, keep && alias, open + [t], m, d);
          }
          assert |MetAt(b, target, keep && alias, open + [t], m, d)| <= |MetAt(p, target, keep && alias, open + [t], m, d)|;
        case Other =>
      }
    }
  }

  lemma {:induction false} BareMetWithinBelow(decls: Graph, methods: Methods, t: TypeKey, n: nat, open: seq<TypeKey>, m: Method, d: nat)
    requires t in decls && decls[t].Struct? && n <= |decls[t].fields|
    ensures |MetBelow(Bare(decls), decls[t].fields[..n], open, m, d)| <= |MetBelow(Program(decls, methods), decls[t].fields[..n], open, m, d)|
    decreases Unopened(Bare(decls), open), 1, n
  {
    if n > 0 {
      var f := decls[t].fields[n - 1];
      assert decls[t].fields[..n][..n - 1] == decls[t].fields[..n - 1];
      BareMetWithinBelow(decls, methods, t, n - 1, open, m, d);
      if f.Embed? && f.target.Local? {
        BareMetWithin(decls, methods, f.target.key, true, open, m, d);
      }
    }
  }

  // ----- without methods, nothing is lost

  /** The names from t on lead to a struct. */
  predicate EndsInStruct(decls: Graph, t: TypeKey, seen: seq<TypeKey>)
    decreases Unopened(Bare(decls), seen)
  {
    && t !in seen && t in decls
    && (OpeningShrinks(Bare(decls), seen, t);
        match decls[t]
        case Struct(_) => true
        case Names(target, _) => target.Local? && EndsInStruct(decls, target.key, seen + [t])
        case Other => false)
  }

  lemma {:induction false} ChainEnds(decls: Graph, os: seq<Opened>, k: nat, seen: seq<TypeKey>)
    requires IsChain(Bare(decls), os) && k < |os| && os[|os| - 1].key in decls && decls[os[|os| - 1].key].Struct?
    requires forall i, j | k <= i < j < |os| :: os[i].key != os[j].key
    requires forall i | k <= i < |os| :: os[i].key !in seen
    ensures EndsInStruct(decls, os[k].key, seen)
    decreases |os| - k
  {
    if k < |os| - 1 {
      assert LeadsTo(Bare(decls), os[(k + 1) - 1], os[k + 1]);
      ChainEnds(decls, os, k + 1, seen + [os[k].key]);
    }
  }

  /** On the way to a struct, with no methods declared, neither keeping methods nor what was passed matters. */
  lemma {:induction false} BareAlike(decls: Graph, t: TypeKey, seen: seq<TypeKey>, keep: bool, some: seq<TypeKey>, other: bool, more: seq<TypeKey>, m: Method, d: nat)
    requires EndsInStruct(decls, t, seen) && (forall x <- some :: x in seen) && (forall x <- more :: x in seen)
    ensures Occurrences(Bare(decls), t, keep, some, m, d) == Occurrences(Bare(decls), t, other, more, m, d)
    decreases Unopened(Bare(decls), seen)
  {
    var b := Bare(decls);
    OpeningShrinks(b, seen, t);
    OpeningShrinks(b, some, t);
    OpeningShrinks(b, more, t);
    match decls[t]
    case Struct(_) =>
    case Names(target, alias) =>
      BareAlike(decls, target.key, seen + [t], keep && alias, some + [t], other && alias, more + [t], m, d);
  }

  /** A walk over bare declarations loses nothing.  chain: where the names passed since the last embedded field begin. */
  lemma DistinctMore(os: seq<Opened>, t: Opened)
    requires (forall i, j | 0 <= i < j < |os| :: os[i].key != os[j].key) && t.key !in Keys(os)
    ensures var more := os + [t]; forall i, j | 0 <= i < j < |more| :: more[i].key != more[j].key
  {
    assert forall i | 0 <= i < |os| :: Keys(os)[i] == os[i].key;
  }

  lemma {:induction false} BareLosesNothing(decls: Graph, t: Opened, os: seq<Opened>, chain: nat, depth: nat, at: nat, m: Method)
    requires chain <= |os| && IsChain(Bare(decls), os[chain..] + [t])
    requires forall i, j | 0 <= i < j < |os| :: os[i].key != os[j].key
    requires forall i | 0 <= i < chain :: EndsInStruct(decls, os[i].key, [])
    requires t.keep ==> forall i | chain <= i < |os| :: os[i].keep
    ensures LosesNothingAt(Bare(decls), t.key, t.keep, os, depth, at, m)
    decreases Unopened(Bare(decls), Keys(os))
  {
    hide Occurrences, EndsInStruct, IsChain;
    var b, more := Bare(decls), os + [t];
    if t.key in Keys(os) {
      if t.keep && OpenedWithout(os, t.key) {
        var i :| 0 <= i < |os| && os[i].key == t.key && !os[i].keep;
        BareAlike(decls, t.key, [], true, [], false, [], m, 0);
      }
    } else if t.key in decls {
      OpeningShrinks(b, Keys(os), t.key);
      KeysMore(os, t);
      assert more[chain..] == os[chain..] + [t] && t == Opened(t.key, t.keep);
      DistinctMore(os, t);
      match decls[t.key]
      case Struct(fields) =>
        ChainGrounds(decls, more, chain);
        forall f | f in fields && f.Embed? && f.target.Local? ensures LosesNothingAt(b, f.target.key, true, more, depth + 1, at, m) {
          assert more[|more|..] + [Opened(f.target.key, true)] == [Opened(f.target.key, true)];
          OneIsChain(b, Opened(f.target.key, true));
          BareLosesNothing(decls, Opened(f.target.key, true), more, |more|, depth + 1, at, m);
        }
      case Names(target, alias) =>
        if target.Local? {
          var next := Opened(target.key, t.keep && alias);
          OneNameOn(b, more[chain..], next);
          BareLosesNothing(decls, next, more, chain, depth, at, m);
        }
      case Other =>
    }
  }

  lemma OneIsChain(p: Program, o: Opened)
    ensures IsChain(p, [o])
  {
  }

  lemma ChainGrounds(decls: Graph, os: seq<Opened>, chain: nat)
    requires chain < |os| && IsChain(Bare(decls), os[chain..]) && os[|os| - 1].key in decls && decls[os[|os| - 1].key].Struct?
    requires forall i, j | 0 <= i < j < |os| :: os[i].key != os[j].key
    requires forall i | 0 <= i < chain :: EndsInStruct(decls, os[i].key, [])
    ensures forall i | 0 <= i < |os| :: EndsInStruct(decls, os[i].key, [])
  {
    hide EndsInStruct, IsChain;
    var names := os[chain..];
    forall i | chain <= i < |os| ensures EndsInStruct(decls, os[i].key, []) {
      assert names[i - chain] == os[i];
      ChainEnds(decls, names, i - chain, []);
    }
  }

  lemma OneNameOn(p: Program, os: seq<Opened>, next: Opened)
    requires IsChain(p, os) && |os| > 0 && LeadsTo(p, os[|os| - 1], next)
    ensures IsChain(p, os + [next])
  {
    var path := os + [next];
    forall i | 0 < i < |path| ensures LeadsTo(p, path[i - 1], path[i]) {
      assert i < |os| ==> path[i] == os[i];
    }
  }

  lemma BareIsExact(decls: Graph, r: TypeKey, m: Method, d: nat)
    requires NoneAbove(Bare(decls), Opened(r, true), m, d)
    ensures Met(Bare(decls), r, true, [], m, d) == Occurrences(Bare(decls), r, true, [], m, d)
  {
    var none: seq<Opened> := [];
    assert none[0..] + [Opened(r, true)] == [Opened(r, true)];
    BareLosesNothing(decls, Opened(r, true), [], 0, 0, d, m);
    MeetsAtDepth(Bare(decls), r, true, m, d);
  }

  // ----- where m is always shadowed, its entries are right

  lemma {:induction false} CleanLosesNone(decls: Graph, methods: Methods, r: TypeKey, t: TypeKey, keep: bool, os: seq<Opened>, depth: nat, at: nat, m: Method)
    requires CleanFor(decls, r, m, t, keep, os, depth) && !Shadowed(decls, r, m, at)
    ensures LosesNothingAt(Program(decls, methods), t, keep, os, depth, at, m)
    decreases Unopened(Bare(decls), Keys(os))
  {
    hide Shadowed, Occurrences;
    var p, more := Program(decls, methods), os + [Opened(t, keep)];
    assert Unopened(p, Keys(os)) == Unopened(Bare(decls), Keys(os));
    if t !in Keys(os) && t in decls {
      OpeningShrinks(Bare(decls), Keys(os), t);
      KeysMore(os, Opened(t, keep));
      match decls[t]
      case Struct(fields) =>
        forall f | f in fields && f.Embed? && f.target.Local? ensures LosesNothingAt(p, f.target.key, true, more, depth + 1, at, m) {
          CleanLosesNone(decls, methods, r, f.target.key, true, more, depth + 1, at, m);
        }
      case Names(target, alias) =>
        if target.Local? {
          CleanLosesNone(decls, methods, r, target.key, keep && alias, more, depth, at, m);
        }
      case Other =>
    }
  }

  /** At the shallowest depth the walk meets all there is, or enough to know it ambiguous. */
  lemma MeetsEnough(decls: Graph, methods: Methods, r: TypeKey, m: Method, d: nat)
    requires CleanFor(decls, r, m, r, true, [], 0) && NoneAbove(Program(decls, methods), Opened(r, true), m, d)
    ensures var p := Program(decls, methods);
            || Met(p, r, true, [], m, d) == Occurrences(p, r, true, [], m, d)
            || (|Met(p, r, true, [], m, d)| >= 2 && |Occurrences(p, r, true, [], m, d)| >= 2)
  {
    hide Met, Occurrences, CleanFor, LosesNothingAt;
    var b, p := Bare(decls), Program(decls, methods);
    MetWithin(p, r, true, [], [], m, d);
    if |Met(p, r, true, [], m, d)| < 2 {
      BareMetWithin(decls, methods, r, true, [], m, d);
      forall e: nat | e < d ensures Occurrences(b, r, true, [], m, e) == [] {
        BareWithin(decls, methods, r, true, [], m, e);
      }
      BareIsExact(decls, r, m, d);
      CleanLosesNone(decls, methods, r, r, true, [], 0, d, m);
      MeetsAtDepth(p, r, true, m, d);
    }
  }

  lemma {:induction false} NothingAbove(decls: Graph, methods: Methods, r: TypeKey, m: Method, d: nat)
    requires CleanFor(decls, r, m, r, true, [], 0)
    requires forall e: nat | e < d :: Met(Program(decls, methods), r, true, [], m, e) == []
    ensures NoneAbove(Program(decls, methods), Opened(r, true), m, d)
    decreases d
  {
    hide Met, Occurrences, CleanFor;
    if d > 0 {
      NothingAbove(decls, methods, r, m, d - 1);
      MeetsEnough(decls, methods, r, m, d - 1);
    }
  }

  lemma CleanIsExact(decls: Graph, methods: Methods, r: TypeKey, m: Method)
    requires CleanFor(decls, r, m, r, true, [], 0)
    ensures ExactFor(Program(decls, methods), r, m)
  {
    hide Met, Occurrences, CleanFor, Walk;
    var p := Program(decls, methods);
    var e := Get(Walk(p, r, true, []), m);
    var met := ByDepth(p, r, true, [], m);
    var all: nat -> seq<Occurrence> := (d: nat) => Occurrences(p, r, true, [], m, d);
    WalkSelects(p, r, true, [], m);
    assert forall x: nat :: met(x) == Met(p, r, true, [], m, x);
    if e.None? {
      forall d: nat ensures all(d) == [] {
        assert forall x: nat | x < d + 1 :: met(x) == [];
        NothingAbove(decls, methods, r, m, d + 1);
        assert d < d + 1 && all(d) == Occurrences(p, r, true, [], m, d);
      }
    } else {
      var x := e.value.depth;
      NothingAbove(decls, methods, r, m, x);
      MeetsEnough(decls, methods, r, m, x);
      assert all(x) == Occurrences(p, r, true, [], m, x) && met(x) != [];
      MetWithin(p, r, true, [], [], m, x);
    }
  }

  // ----- the way back to a type opened without its methods

  predicate IsStruct(decls: Graph, o: Opened) {
    o.key in decls && decls[o.key].Struct?
  }

  predicate Embeds(decls: Graph, o: Opened, next: Opened) {
    IsStruct(decls, o) && next.keep && exists f <- decls[o.key].fields :: f.Embed? && f.target == Local(next.key)
  }

  predicate GoesOn(decls: Graph, o: Opened, next: Opened) {
    if IsStruct(decls, o) then Embeds(decls, o, next) else LeadsTo(Bare(decls), o, next)
  }

  predicate IsWalk(decls: Graph, os: seq<Opened>) {
    forall i | 0 < i < |os| :: GoesOn(decls, os[i - 1], os[i])
  }

  predicate AllDifferent(os: seq<Opened>) {
    forall a, b | 0 <= a < b < |os| :: os[a].key != os[b].key
  }

  /** How many embeddings below its first type a walk has come. */
  function Depth(decls: Graph, os: seq<Opened>): nat
    decreases |os|
  {
    if |os| <= 1 then 0 else (if IsStruct(decls, os[0]) then 1 else 0) + Depth(decls, os[1..])
  }

  lemma {:induction false} DepthSplits(decls: Graph, os: seq<Opened>, k: nat)
    requires k < |os|
    ensures Depth(decls, os) == Depth(decls, os[..k + 1]) + Depth(decls, os[k..])
    decreases k
  {
    if k > 0 {
      assert os[1..][..k] == os[..k + 1][1..] && os[1..][k - 1..] == os[k..];
      DepthSplits(decls, os[1..], k - 1);
    } else {
      assert os[0..] == os;
    }
  }

  lemma DepthOfMore(decls: Graph, os: seq<Opened>, t: Opened, next: Opened)
    ensures Depth(decls, os + [t] + [next]) == Depth(decls, os + [t]) + if IsStruct(decls, t) then 1 else 0
  {
    var all := os + [t] + [next];
    DepthSplits(decls, all, |os|);
    assert all[..|os| + 1] == os + [t] && all[|os|..] == [t, next] && [t, next][1..] == [next];
  }

  /** os goes from one type to the next, all different but for the last, opened without its methods at i before. */
  predicate ComesBack(decls: Graph, os: seq<Opened>, i: nat) {
    && IsWalk(decls, os) && i < |os| - 1
    && AllDifferent(os[..|os| - 1])
    && os[i].key == os[|os| - 1].key && !os[i].keep && os[|os| - 1].keep
  }

  lemma OneStepOn(decls: Graph, os: seq<Opened>, t: Opened, next: Opened)
    requires IsWalk(decls, os + [t]) && AllDifferent(os) && t.key !in Keys(os) && GoesOn(decls, t, next)
    ensures IsWalk(decls, os + [t] + [next]) && AllDifferent(os + [t])
  {
    var more := os + [t];
    forall i | 0 < i < |more + [next]| ensures GoesOn(decls, (more + [next])[i - 1], (more + [next])[i]) {
      assert i < |more| ==> (more + [next])[i] == more[i];
      assert (more + [next])[i - 1] == more[i - 1];
    }
    forall a, b | 0 <= a < b < |more| ensures more[a].key != more[b].key {
      assert Keys(os)[a] == os[a].key;
    }
  }

  /** The next type on the way to an unshadowed stop. */
  lemma UncleanNext(decls: Graph, r: TypeKey, m: Method, t: Opened, os: seq<Opened>, depth: nat) returns (next: Opened)
    requires t.key !in Keys(os) && !CleanFor(decls, r, m, t.key, t.keep, os, depth)
    ensures t.key in decls && GoesOn(decls, t, next)
    ensures !CleanFor(decls, r, m, next.key, next.keep, os + [t], depth + if IsStruct(decls, t) then 1 else 0)
  {
    hide Shadowed;
    assert t == Opened(t.key, t.keep);
    match decls[t.key]
    case Struct(fields) =>
      var f :| f in fields && f.Embed? && f.target.Local? && !CleanFor(decls, r, m, f.target.key, true, os + [t], depth + 1);
      next := Opened(f.target.key, true);
      assert Embeds(decls, t, next);
    case Names(target, alias) =>
      next := Opened(target.key, t.keep && alias);
  }

  lemma UncleanStop(decls: Graph, r: TypeKey, m: Method, t: Opened, os: seq<Opened>, depth: nat) returns (i: nat)
    requires IsWalk(decls, os + [t]) && AllDifferent(os)
    requires t.key in Keys(os) && !CleanFor(decls, r, m, t.key, t.keep, os, depth)
    ensures ComesBack(decls, os + [t], i) && !Shadowed(decls, r, m, depth)
  {
    hide Shadowed;
    i :| 0 <= i < |os| && os[i].key == t.key && !os[i].keep;
    assert (os + [t])[..|os|] == os;
  }

  lemma {:induction false} FindWayBack(decls: Graph, r: TypeKey, m: Method, t: Opened, os: seq<Opened>) returns (path: seq<Opened>, i: nat)
    requires IsWalk(decls, os + [t]) && AllDifferent(os)
    requires !CleanFor(decls, r, m, t.key, t.keep, os, Depth(decls, os + [t]))
    ensures os + [t] <= path && ComesBack(decls, path, i) && !Shadowed(decls, r, m, Depth(decls, path))
    decreases Unopened(Bare(decls), Keys(os))
  {
    hide GoesOn, IsWalk, AllDifferent, CleanFor, ComesBack, Shadowed, Depth;
    var depth := Depth(decls, os + [t]);
    if t.key in Keys(os) {
      path := os + [t];
      i := UncleanStop(decls, r, m, t, os, depth);
    } else {
      var next := UncleanNext(decls, r, m, t, os, depth);
      OpeningShrinks(Bare(decls), Keys(os), t.key);
      KeysMore(os, t);
      OneStepOn(decls, os, t, next);
      DepthOfMore(decls, os, t, next);
      path, i := FindWayBack(decls, r, m, next, os + [t]);
    }
  }

  /** The last type opened with its methods before i: from there to i lead names alone. */
  lemma LastKept(decls: Graph, os: seq<Opened>, i: nat) returns (j: nat)
    requires i < |os| && os[0].keep && !os[i].keep
    ensures j < i && os[j].keep && forall k | j < k <= i :: !os[k].keep
  {
    j := i;
    while !os[j].keep
      invariant 0 <= j <= i && (forall k | j < k <= i :: !os[k].keep)
      decreases j
    {
      j := j - 1;
    }
  }

  lemma WayBackFrom(decls: Graph, path: seq<Opened>, i: nat, j: nat)
    requires ComesBack(decls, path, i) && j <= i
    ensures ComesBack(decls, path[j..], i - j)
  {
    var os := path[j..];
    forall x | 0 < x < |os| ensures GoesOn(decls, os[x - 1], os[x]) {
      assert GoesOn(decls, path[j + x - 1], path[j + x]);
    }
    var most, part := path[..|path| - 1], os[..|os| - 1];
    forall a, b | 0 <= a < b < |part| ensures part[a].key != part[b].key {
      assert most[j + a] == part[a] && most[j + b] == part[b];
    }
  }

  // ----- what a walk has passed by name alone

  /** The names passed since the last embedded field, where seen were passed before os. */
  function SeenAt(decls: Graph, os: seq<Opened>, k: nat, seen: seq<TypeKey>): seq<TypeKey>
    requires k < |os|
    decreases k
  {
    if k == 0 then seen else SeenAt(decls, os[1..], k - 1, if IsStruct(decls, os[0]) then [] else seen + [os[0].key])
  }

  /** No type of os but perhaps the last is among the names passed before it. */
  predicate Fresh(decls: Graph, os: seq<Opened>, seen: seq<TypeKey>) {
    forall k | 0 <= k < |os| :: os[k].key !in SeenAt(decls, os, k, seen)
  }

  lemma FreshRest(decls: Graph, os: seq<Opened>, seen: seq<TypeKey>)
    requires Fresh(decls, os, seen) && |os| > 1
    ensures os[0].key !in seen && Fresh(decls, os[1..], if IsStruct(decls, os[0]) then [] else seen + [os[0].key])
  {
    var next := if IsStruct(decls, os[0]) then [] else seen + [os[0].key];
    assert SeenAt(decls, os, 0, seen) == seen;
    forall k | 0 <= k < |os[1..]| ensures os[1..][k].key !in SeenAt(decls, os[1..], k, next) {
      assert os[k + 1].key !in SeenAt(decls, os, k + 1, seen);
    }
  }

  /** Whoever was passed by name since leads to k by names alone. */
  lemma {:induction false} SeenLeads(decls: Graph, os: seq<Opened>, k: nat, seen: seq<TypeKey>, t: TypeKey) returns (y: int)
    requires IsWalk(decls, os) && k < |os| && t in SeenAt(decls, os, k, seen)
    ensures (y == -1 && t in seen) || (0 <= y < k && os[y].key == t)
    ensures forall x | y < x < k && 0 <= x :: !IsStruct(decls, os[x])
    ensures 0 <= y ==> !IsStruct(decls, os[y])
    decreases k
  {
    if k == 0 {
      y := -1;
    } else {
      var next := if IsStruct(decls, os[0]) then [] else seen + [os[0].key];
      forall i | 0 < i < |os[1..]| ensures GoesOn(decls, os[1..][i - 1], os[1..][i]) {
        assert GoesOn(decls, os[(i + 1) - 1], os[i + 1]);
      }
      y := SeenLeads(decls, os[1..], k - 1, next, t);
      assert forall x | 0 <= x < |os| - 1 :: os[1..][x] == os[x + 1];
      if y >= 0 {
        y := y + 1;
      } else if t == os[0].key && t in next {
        y := 0;
      }
    }
  }

  lemma {:induction false} KeepsFalling(decls: Graph, os: seq<Opened>, y: nat, k: nat)
    requires IsWalk(decls, os) && y <= k < |os| && !os[y].keep
    requires forall x | y <= x < k :: !IsStruct(decls, os[x])
    ensures !os[k].keep
    decreases k
  {
    if y < k {
      KeepsFalling(decls, os, y, k - 1);
      assert GoesOn(decls, os[k - 1], os[k]);
    }
  }

  lemma SameType(os: seq<Opened>, a: nat, b: nat)
    requires |os| > 0 && AllDifferent(os[..|os| - 1]) && a < |os| - 1 && b < |os| - 1 && os[a].key == os[b].key
    ensures a == b
  {
    var most := os[..|os| - 1];
    assert most[a] == os[a] && most[b] == os[b];
  }

  lemma WayBackIsFresh(decls: Graph, os: seq<Opened>, i: nat)
    requires ComesBack(decls, os, i)
    ensures Fresh(decls, os, [])
  {
    forall k | 0 <= k < |os| ensures os[k].key !in SeenAt(decls, os, k, []) {
      if os[k].key in SeenAt(decls, os, k, []) {
        var y := SeenLeads(decls, os, k, [], os[k].key);
        if k == |os| - 1 {
          SameType(os, y, i);
          KeepsFalling(decls, os, y, k);
        }
      }
    }
  }

  /** From i on, the names lead to a struct before the way comes back. */
  lemma StructAhead(decls: Graph, os: seq<Opened>, i: nat) returns (s: nat)
    requires ComesBack(decls, os, i)
    ensures i <= s < |os| - 1 && IsStruct(decls, os[s]) && forall x | i <= x < s :: !IsStruct(decls, os[x])
  {
    s := i;
    while !IsStruct(decls, os[s])
      invariant i <= s < |os| - 1 && forall x | i <= x < s :: !IsStruct(decls, os[x])
      decreases |os| - s
    {
      if s == |os| - 2 {
        KeepsFalling(decls, os, i, |os| - 1);
      }
      s := s + 1;
    }
  }

  /** So the names from k on do, whatever was passed before that is not among them. */
  lemma NamesAhead(decls: Graph, os: seq<Opened>, i: nat, k: nat, s: nat, seen: seq<TypeKey>)
    requires ComesBack(decls, os, i) && k <= s < |os| - 1 && IsStruct(decls, os[s]) && forall x | k <= x < s :: !IsStruct(decls, os[x])
    requires forall x | k <= x <= s :: os[x].key !in seen
    ensures EndsInStruct(decls, os[k].key, seen)
  {
    var names, most := os[k..s + 1], os[..|os| - 1];
    forall x | 0 < x < |names| ensures LeadsTo(Bare(decls), names[x - 1], names[x]) {
      assert GoesOn(decls, os[k + x - 1], os[k + x]);
    }
    forall a, b | 0 <= a < b < |names| ensures names[a].key != names[b].key {
      assert most[k + a] == names[a] && most[k + b] == names[b];
    }
    ChainEnds(decls, names, 0, seen);
  }

  // ----- what stands below a type on the way stands below the first

  lemma {:induction false} BelowCounts(p: Program, fields: seq<Field>, f: Field, m: Method, d: nat)
    requires f in fields && f.Embed?
    ensures |OccurrencesAt(p, f.target, true, [], m, d)| <= |OccurrencesBelow(p, fields, m, d)|
    decreases |fields|
  {
    var rest, last := fields[..|fields| - 1], fields[|fields| - 1];
    if f != last {
      assert f in rest;
      BelowCounts(p, rest, f, m, d);
    }
  }

  lemma StepCounts(decls: Graph, o: Opened, next: Opened, seen: seq<TypeKey>, m: Method, d: nat)
    requires GoesOn(decls, o, next) && o.key !in seen
    ensures var b := Bare(decls);
            if IsStruct(decls, o)
            then |Occurrences(b, next.key, next.keep, [], m, d)| <= |Occurrences(b, o.key, o.keep, seen, m, d + 1)|
            else Occurrences(b, next.key, next.keep, seen + [o.key], m, d) == Occurrences(b, o.key, o.keep, seen, m, d)
  {
    var b := Bare(decls);
    OpeningShrinks(b, seen, o.key);
    if IsStruct(decls, o) {
      var f :| f in decls[o.key].fields && f.Embed? && f.target == Local(next.key);
      BelowCounts(b, decls[o.key].fields, f, m, d);
    } else {
      assert OccurrencesAt(b, Local(next.key), next.keep, seen + [o.key], m, d) == Occurrences(b, next.key, next.keep, seen + [o.key], m, d);
    }
  }

  lemma WalkRest(decls: Graph, os: seq<Opened>)
    requires IsWalk(decls, os) && |os| > 1
    ensures IsWalk(decls, os[1..]) && GoesOn(decls, os[0], os[1])
  {
    assert GoesOn(decls, os[1 - 1], os[1]);
    forall i | 0 < i < |os[1..]| ensures GoesOn(decls, os[1..][i - 1], os[1..][i]) {
      assert GoesOn(decls, os[(i + 1) - 1], os[i + 1]);
    }
  }

  lemma {:induction false} StandsBelow(decls: Graph, os: seq<Opened>, k: nat, seen: seq<TypeKey>, m: Method, d: nat)
    requires IsWalk(decls, os) && k < |os| && Fresh(decls, os, seen)
    ensures |Occurrences(Bare(decls), os[k].key, os[k].keep, SeenAt(decls, os, k, seen), m, d)|
         <= |Occurrences(Bare(decls), os[0].key, os[0].keep, seen, m, Depth(decls, os[..k + 1]) + d)|
    decreases k
  {
    hide Occurrences, GoesOn, IsWalk, Fresh;
    if k > 0 {
      var next := if IsStruct(decls, os[0]) then [] else seen + [os[0].key];
      WalkRest(decls, os);
      FreshRest(decls, os, seen);
      StandsBelow(decls, os[1..], k - 1, next, m, d);
      assert os[..k + 1][1..] == os[1..][..k];
      StepCounts(decls, os[0], os[1], seen, m, Depth(decls, os[1..][..k]) + d);
    }
  }

  // ----- one method declared on the type come back to

  function Probe(decls: Graph, t: TypeKey, m: Method): Program {
    Program(decls, map[t := map[m := Own(true, false)]])
  }

  lemma {:induction false} MeetsAlike(decls: Graph, t: TypeKey, x: TypeKey, keep: bool, open: seq<TypeKey>, m: Method, d: nat)
    requires t in open || (x == t && !keep)
    ensures Met(Probe(decls, t, m), x, keep, open, m, d) == Met(Bare(decls), x, keep, open, m, d)
    decreases Unopened(Bare(decls), open), 0
  {
    var b, p := Bare(decls), Probe(decls, t, m);
    assert Unopened(p, open) == Unopened(b, open);
    if x !in open && x in decls {
      OpeningShrinks(b, open, x);
      match decls[x]
      case Struct(fields) =>
        if d > 0 {
          MeetsAlikeBelow(decls, t, x, |fields|, open + [x], m, d - 1);
          assert fields[..|fields|] == fields;
        }
      case Names(target, alias) =>
        if target.Local? {
          MeetsAlike(decls, t, target.key, keep && alias, open + [x], m, d);
        }
        assert MetAt(p, target, keep && alias, open + [x], m, d) == MetAt(b, target, keep && alias, open + [x], m, d);
      case Other =>
    }
  }

  lemma {:induction false} MeetsAlikeBelow(decls: Graph, t: TypeKey, x: TypeKey, n: nat, open: seq<TypeKey>, m: Method, d: nat)
    requires t in open && x in decls && decls[x].Struct? && n <= |decls[x].fields|
    ensures MetBelow(Probe(decls, t, m), decls[x].fields[..n], open, m, d) == MetBelow(Bare(decls), decls[x].fields[..n], open, m, d)
    decreases Unopened(Bare(decls), open), 1, n
  {
    if n > 0 {
      var f := decls[x].fields[n - 1];
      assert decls[x].fields[..n][..n - 1] == decls[x].fields[..n - 1];
      MeetsAlikeBelow(decls, t, x, n - 1, open, m, d);
      if f.Embed? && f.target.Local? {
        MeetsAlike(decls, t, f.target.key, true, open, m, d);
      }
    }
  }

  /** The walk that opens t without its methods never meets the one declared on it. */
  lemma {:induction false} ChainMeetsAlike(decls: Graph, os: seq<Opened>, i: nat, k: nat, m: Method, d: nat)
    requires ComesBack(decls, os, i) && k <= i && forall j | k < j <= i :: !os[j].keep
    ensures Met(Probe(decls, os[i].key, m), os[k].key, os[k].keep, Keys(os[..k]), m, d) == Met(Bare(decls), os[k].key, os[k].keep, Keys(os[..k]), m, d)
    decreases i - k
  {
    var t, open := os[i].key, Keys(os[..k]);
    if k == i {
      MeetsAlike(decls, t, t, false, open, m, d);
    } else {
      var b, p, o := Bare(decls), Probe(decls, t, m), os[k];
      var most := os[..|os| - 1];
      assert most[k].key != most[i].key;
      assert GoesOn(decls, os[(k + 1) - 1], os[k + 1]);
      ChainMeetsAlike(decls, os, i, k + 1, m, d);
      KeysMore(os[..k], o);
      assert os[..k + 1] == os[..k] + [o];
      hide ComesBack;
      if o.key !in open {
        OpeningShrinks(b, open, o.key);
        assert Unopened(p, open) == Unopened(b, open);
        var target := Local(os[k + 1].key);
        assert MetAt(p, target, os[k + 1].keep, open + [o.key], m, d) == MetAt(b, target, os[k + 1].keep, open + [o.key], m, d);
      }
    }
  }

  /** Yet it stands where the way comes back. */
  lemma {:induction false} MoreOccur(decls: Graph, os: seq<Opened>, seen: seq<TypeKey>, t: TypeKey, m: Method)
    requires |os| > 0 && IsWalk(decls, os) && Fresh(decls, os, seen)
    requires os[|os| - 1] == Opened(t, true) && forall x | 0 <= x < |os| - 1 :: os[x].key == t ==> !os[x].keep
    requires Occurrences(Bare(decls), t, true, SeenAt(decls, os, |os| - 1, seen), m, 0) == []
    ensures |Occurrences(Probe(decls, t, m), os[0].key, os[0].keep, seen, m, Depth(decls, os))|
          > |Occurrences(Bare(decls), os[0].key, os[0].keep, seen, m, Depth(decls, os))|
    decreases |os|
  {
    if |os| == 1 {
      assert SeenAt(decls, os, 0, seen) == seen && os[0].key !in SeenAt(decls, os, 0, seen);
    } else {
      hide Occurrences, GoesOn, IsWalk, Fresh;
      var next := if IsStruct(decls, os[0]) then [] else seen + [os[0].key];
      WalkRest(decls, os);
      FreshRest(decls, os, seen);
      assert os[1..][|os| - 2] == os[|os| - 1];
      MoreOccur(decls, os[1..], next, t, m);
      MoreBefore(decls, os[0], os[1], seen, t, m, Depth(decls, os[1..]));
    }
  }

  lemma StructOccurs(p: Program, t: TypeKey, keep: bool, seen: seq<TypeKey>, m: Method, d: nat)
    requires t in p.decls && p.decls[t].Struct? && t !in seen
    ensures var fields := p.decls[t].fields;
            fields[..|fields|] == fields && Occurrences(p, t, keep, seen, m, d + 1) == OccurrencesBelow(p, fields[..|fields|], m, d)
  {
    assert p.decls[t].fields[..|p.decls[t].fields|] == p.decls[t].fields;
  }

  lemma MoreBefore(decls: Graph, o: Opened, next: Opened, seen: seq<TypeKey>, t: TypeKey, m: Method, d: nat)
    requires GoesOn(decls, o, next) && o.key !in seen && (o.key == t ==> !o.keep)
    requires var passed := if IsStruct(decls, o) then [] else seen + [o.key];
             |Occurrences(Probe(decls, t, m), next.key, next.keep, passed, m, d)| > |Occurrences(Bare(decls), next.key, next.keep, passed, m, d)|
    ensures var e := if IsStruct(decls, o) then d + 1 else d;
            |Occurrences(Probe(decls, t, m), o.key, o.keep, seen, m, e)| > |Occurrences(Bare(decls), o.key, o.keep, seen, m, e)|
  {
    var b, p := Bare(decls), Probe(decls, t, m);
    OpeningShrinks(b, seen, o.key);
    assert Unopened(p, seen) == Unopened(b, seen);
    if IsStruct(decls, o) {
      var fields := decls[o.key].fields;
      var f :| f in fields && f.Embed? && f.target == Local(next.key);
      var i :| 0 <= i < |fields| && fields[i] == f;
      MoreBelow(decls, t, o.key, i, |fields|, m, d);
      StructOccurs(b, o.key, o.keep, seen, m, d);
      StructOccurs(p, o.key, o.keep, seen, m, d);
    } else {
      assert OccurrencesAt(b, Local(next.key), next.keep, seen + [o.key], m, d) == Occurrences(b, next.key, next.keep, seen + [o.key], m, d);
      assert OccurrencesAt(p, Local(next.key), next.keep, seen + [o.key], m, d) == Occurrences(p, next.key, next.keep, seen + [o.key], m, d);
    }
  }

  lemma {:induction false} MoreBelow(decls: Graph, t: TypeKey, x: TypeKey, i: nat, n: nat, m: Method, d: nat)
    requires x in decls && decls[x].Struct? && i < n <= |decls[x].fields|
    requires var f := decls[x].fields[i];
             f.Embed? && |OccurrencesAt(Probe(decls, t, m), f.target, true, [], m, d)| > |OccurrencesAt(Bare(decls), f.target, true, [], m, d)|
    ensures |OccurrencesBelow(Probe(decls, t, m), decls[x].fields[..n], m, d)| > |OccurrencesBelow(Bare(decls), decls[x].fields[..n], m, d)|
    decreases n
  {
    var f, methods := decls[x].fields[n - 1], Probe(decls, t, m).methods;
    assert decls[x].fields[..n][..n - 1] == decls[x].fields[..n - 1];
    if i == n - 1 {
      BareWithinBelow(decls, methods, x, n - 1, m, d);
    } else {
      MoreBelow(decls, t, x, i, n - 1, m, d);
      if f.Embed? && f.target.Local? {
        BareWithin(decls, methods, f.target.key, true, [], m, d);
      }
    }
  }

  /** Where m is not shadowed when the way comes back, the first type of it gets a wrong entry. */
  lemma LosesOnWayBack(decls: Graph, os: seq<Opened>, i: nat, m: Method)
    requires ComesBack(decls, os, i) && os[0].keep && forall k | 0 < k <= i :: !os[k].keep
    requires !Shadowed(decls, os[0].key, m, Depth(decls, os))
    ensures !ExactFor(Probe(decls, os[i].key, m), os[0].key, m)
  {
    var b, t, d, e := Bare(decls), os[i].key, os[0].key, Depth(decls, os);
    var p := Probe(decls, t, m);
    OnlyLast(decls, os, i);
    WayBackIsFresh(decls, os, i);
    TopIsFree(decls, os, i, m);
    MoreOccur(decls, os, [], t, m);
    hide ComesBack, Met, Occurrences, Walk, Fresh, Depth;
    var met, all := ByDepth(p, d, true, [], m), (x: nat) => Occurrences(p, d, true, [], m, x);
    assert os[..0] == [] && Keys([]) == [];
    forall x: nat ensures met(x) == Met(b, d, true, [], m, x) && |met(x)| <= |Occurrences(b, d, true, [], m, x)| {
      ChainMeetsAlike(decls, os, i, 0, m, x);
      MetWithin(b, d, true, [], [], m, x);
    }
    WalkSelects(p, d, true, [], m);
    assert |all(e)| > |Occurrences(b, d, true, [], m, e)|;
    NotBoth(Get(Walk(p, d, true, []), m), met, all, e);
  }

  /** One entry cannot be right for both: none met above e and one there at most, and more standing there. */
  lemma NotBoth(x: Option<Entry>, met: nat -> seq<Occurrence>, all: nat -> seq<Occurrence>, e: nat)
    requires (forall d: nat | d < e :: met(d) == []) && |met(e)| <= 1 && |all(e)| > |met(e)|
    ensures !(Selects(x, met) && Selects(x, all))
  {
  }

  lemma OnlyLast(decls: Graph, os: seq<Opened>, i: nat)
    requires ComesBack(decls, os, i)
    ensures os[|os| - 1] == Opened(os[i].key, true) && forall x | 0 <= x < |os| - 1 :: os[x].key == os[i].key ==> !os[x].keep
  {
    var most := os[..|os| - 1];
    forall x | 0 <= x < |os| - 1 && os[x].key == os[i].key ensures !os[x].keep {
      assert most[x].key == most[i].key;
    }
  }

  /** The type come back to has no field named m: it would shadow all that is deeper. */
  lemma TopIsFree(decls: Graph, os: seq<Opened>, i: nat, m: Method)
    requires ComesBack(decls, os, i) && (forall k | 0 < k <= i :: !os[k].keep) && !Shadowed(decls, os[0].key, m, Depth(decls, os)) && os[0].keep
    ensures Occurrences(Bare(decls), os[i].key, true, SeenAt(decls, os, |os| - 1, []), m, 0) == []
  {
    var b, last := Bare(decls), |os| - 1;
    var s := StructAhead(decls, os, i);
    NamesToStruct(decls, os, i, s);
    WayBackIsFresh(decls, os, i);
    StandsBelow(decls, os, i, [], m, 0);
    DepthOfNames(decls, os, i);
    StructDeepens(decls, os, s);
    assert Occurrences(b, os[0].key, true, [], m, 0) == [];
    var seen, later := SeenAt(decls, os, i, []), SeenAt(decls, os, last, []);
    forall x | i <= x <= s ensures os[x].key !in seen && os[x].key !in later {
      NotSeen(decls, os, i, s, x);
    }
    var both := seen + later;
    NamesAhead(decls, os, i, i, s, both);
    BareAlike(decls, os[i].key, both, os[i].keep, seen, true, later, m, 0);
  }

  lemma NamesToStruct(decls: Graph, os: seq<Opened>, i: nat, s: nat)
    requires ComesBack(decls, os, i) && (forall k | 0 < k <= i :: !os[k].keep) && i <= s < |os| && (forall x | i <= x < s :: !IsStruct(decls, os[x]))
    ensures forall x | 0 <= x < s :: !IsStruct(decls, os[x])
  {
    forall x | 0 <= x < i ensures !IsStruct(decls, os[x]) {
      assert GoesOn(decls, os[(x + 1) - 1], os[x + 1]);
    }
  }

  lemma DepthOfNames(decls: Graph, os: seq<Opened>, i: nat)
    requires i < |os| && forall x | 0 <= x < i :: !IsStruct(decls, os[x])
    ensures Depth(decls, os[..i + 1]) == 0
    decreases i
  {
    if i > 0 {
      assert os[..i + 1][1..] == os[1..][..i];
      assert forall x | 0 <= x < i - 1 :: os[1..][x] == os[x + 1];
      DepthOfNames(decls, os[1..], i - 1);
    }
  }

  lemma StructDeepens(decls: Graph, os: seq<Opened>, s: nat)
    requires s < |os| - 1 && IsStruct(decls, os[s])
    ensures Depth(decls, os) > 0
  {
    DepthSplits(decls, os, s);
  }

  /** The names up to the struct are passed neither before i nor since the last embedded field. */
  lemma NotSeen(decls: Graph, os: seq<Opened>, i: nat, s: nat, x: nat)
    requires ComesBack(decls, os, i) && i <= x <= s < |os| - 1 && IsStruct(decls, os[s])
    ensures os[x].key !in SeenAt(decls, os, i, []) && os[x].key !in SeenAt(decls, os, |os| - 1, [])
  {
    if os[x].key in SeenAt(decls, os, i, []) {
      var y := SeenLeads(decls, os, i, [], os[x].key);
      SameType(os, y, x);
    }
    if os[x].key in SeenAt(decls, os, |os| - 1, []) {
      var y := SeenLeads(decls, os, |os| - 1, [], os[x].key);
      SameType(os, y, x);
    }
  }

  // ----- exactly when

  /** A way back from r, seen from the last type opened with its methods: shadowed there, shadowed from r. */
  lemma ShadowedAbove(decls: Graph, path: seq<Opened>, i: nat, j: nat, m: Method)
    requires ComesBack(decls, path, i) && path[0].keep && j <= i && path[j].keep && (forall k | j < k <= i :: !path[k].keep)
    requires Shadowed(decls, path[j].key, m, Depth(decls, path[j..]))
    ensures Shadowed(decls, path[0].key, m, Depth(decls, path))
  {
    var b, at := Bare(decls), Depth(decls, path[..j + 1]);
    DepthSplits(decls, path, j);
    WayBackIsFresh(decls, path, i);
    FirstIsAlike(decls, path, i, j, m);
    forall d: nat
      ensures |Occurrences(b, path[j].key, true, [], m, d)| <= |Occurrences(b, path[0].key, true, [], m, at + d)|
    {
      StandsBelow(decls, path, j, [], m, d);
    }
    hide ComesBack, Occurrences, Fresh, Depth;
    var e := Depth(decls, path[j..]);
    if exists d: nat | d < e :: Occurrences(b, path[j].key, true, [], m, d) != [] {
      var d: nat :| d < e && Occurrences(b, path[j].key, true, [], m, d) != [];
      assert at + d < Depth(decls, path) && Occurrences(b, path[0].key, true, [], m, at + d) != [];
    }
  }

  lemma FirstIsAlike(decls: Graph, path: seq<Opened>, i: nat, j: nat, m: Method)
    requires ComesBack(decls, path, i) && j <= i && path[j].keep && (forall k | j < k <= i :: !path[k].keep)
    ensures forall d: nat :: Occurrences(Bare(decls), path[j].key, true, SeenAt(decls, path, j, []), m, d) == Occurrences(Bare(decls), path[j].key, true, [], m, d)
  {
    var s := StructAhead(decls, path, i);
    var seen := SeenAt(decls, path, j, []);
    forall x | j <= x < s ensures !IsStruct(decls, path[x]) {
      if x < i {
        assert GoesOn(decls, path[(x + 1) - 1], path[x + 1]);
      }
    }
    forall x | j <= x <= s ensures path[x].key !in seen {
      if path[x].key in seen {
        var y := SeenLeads(decls, path, j, [], path[x].key);
        SameType(path, y, x);
      }
    }
    NamesAhead(decls, path, i, j, s, seen);
    forall d: nat ensures Occurrences(Bare(decls), path[j].key, true, seen, m, d) == Occurrences(Bare(decls), path[j].key, true, [], m, d) {
      BareAlike(decls, path[j].key, seen, true, seen, true, [], m, d);
    }
  }

  lemma WrongEntry(decls: Graph, r: TypeKey, m: Method) returns (d: TypeKey, methods: Methods)
    requires !CleanFor(decls, r, m, r, true, [], 0)
    ensures !ExactFor(Program(decls, methods), d, m)
  {
    hide CleanFor, ExactFor, Shadowed, ComesBack, Depth;
    var path, i := WayBackFor(decls, r, m);
    var j := LastKept(decls, path, i);
    if Shadowed(decls, path[j].key, m, Depth(decls, path[j..])) {
      ShadowedAbove(decls, path, i, j, m);
    }
    WayBackFrom(decls, path, i, j);
    var os := path[j..];
    assert forall k | 0 < k <= i - j :: os[k] == path[j + k];
    LosesOnWayBack(decls, os, i - j, m);
    d, methods := os[0].key, Probe(decls, os[i - j].key, m).methods;
  }

  lemma WayBackFor(decls: Graph, r: TypeKey, m: Method) returns (path: seq<Opened>, i: nat)
    requires !CleanFor(decls, r, m, r, true, [], 0)
    ensures ComesBack(decls, path, i) && path[0] == Opened(r, true) && i < |path| && !path[i].keep
    ensures !Shadowed(decls, r, m, Depth(decls, path))
  {
    hide CleanFor, Shadowed;
    var none: seq<Opened> := [];
    assert Keys(none) == [] && none + [Opened(r, true)] == [Opened(r, true)];
    path, i := FindWayBack(decls, r, m, Opened(r, true), []);
    assert path[0] == (none + [Opened(r, true)])[0];
  }

  /** Every type gets the right entry for m, whatever methods are declared, if and only if every way back finds m shadowed. */
  lemma ExactIffClean(decls: Graph, m: Method)
    ensures AlwaysExact(decls, m) <==> AlwaysClean(decls, m)
  {
    hide ExactFor, CleanFor;
    if AlwaysClean(decls, m) {
      forall r: TypeKey, methods: Methods ensures ExactFor(Program(decls, methods), r, m) {
        CleanIsExact(decls, methods, r, m);
      }
    } else {
      var r :| !CleanFor(decls, r, m, r, true, [], 0);
      var d, methods := WrongEntry(decls, r, m);
    }
  }

  // ----- a field of the name

  /**
   A struct that embeds itself and has a field named m, and a type defined over
   it: the walk comes back, and m is right all the same.
   */
  lemma FieldKeepsExact(s: TypeKey, d: TypeKey, fields: seq<Field>, m: Method)
    requires s != d && HasField(fields, m) && forall f <- fields :: f.Embed? ==> f.target == Local(s)
    ensures AlwaysExact(map[s := Struct(fields), d := Names(Local(s), false)], m)
    ensures (exists f <- fields :: f.Embed?) ==> !StopsClean(Bare(map[s := Struct(fields), d := Names(Local(s), false)]), d, true, [])
  {
    var decls: Graph := map[s := Struct(fields), d := Names(Local(s), false)];
    var os := [Opened(d, true)];
    var more := os + [Opened(s, false)];
    assert Keys([]) == [] && Keys(os) == [d] && Keys(more) == [d, s] && Keys([Opened(s, true)]) == [s];
    assert [] + [d] == [d] && [] + [Opened(s, true)] == [Opened(s, true)] && [] + os == os && more[1] == Opened(s, false);
    var once := Occurrences(Bare(decls), s, false, [d], m, 0);
    assert once == [Occurrence(false, false, "", "")];
    assert Occurrences(Bare(decls), d, true, [], m, 0) == once;
    assert Shadowed(decls, d, m, 1);
    forall r: TypeKey ensures CleanFor(decls, r, m, r, true, [], 0) {
      if r == d {
        assert CleanFor(decls, d, m, s, false, os, 0);
      }
    }
    ExactIffClean(decls, m);
    if f :| f in fields && f.Embed? {
      assert !StopsClean(Bare(decls), s, true, more);
      assert f.target.key == s && !StopsClean(Bare(decls), s, false, os);
    }
  }
}
