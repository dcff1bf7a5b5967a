/**
 Where the walk stops, at a type it is inside of, nothing is lost: whatever
 stands below there stands higher up as well and shadows it, unless the type
 was opened without its methods and is met again with them.
 */
module MethodExactness {
  import opened Wrappers
  import opened MethodSets

  /** A type the walk is inside of, and whether it was opened with its own methods. */
  datatype Opened = Opened(key: TypeKey, keep: bool)

  function Keys(os: seq<Opened>): (r: seq<TypeKey>)
    ensures |r| == |os|
  {
    seq(|os|, i requires 0 <= i < |os| => os[i].key)
  }

  lemma KeysMore(os: seq<Opened>, o: Opened)
    ensures Keys(os + [o]) == Keys(os) + [o.key]
  {
  }

  /** The walk meets no type with its own methods again that it has opened without them. */
  predicate StopsClean(p: Program, t: TypeKey, keep: bool, os: seq<Opened>)
    decreases Unopened(p, Keys(os)), 0
  {
    if t in Keys(os) then keep ==> forall o <- os :: o.key == t ==> o.keep
    else if t !in p.decls then true
    else
      OpeningShrinks(p, Keys(os), t);
      KeysMore(os, Opened(t, keep));
      var more := os + [Opened(t, keep)];
      match p.decls[t]
      case Struct(fields) => forall f <- fields :: f.Embed? && f.target.Local? ==> StopsClean(p, f.target.key, true, more)
      case Names(target, alias) => target.Local? ==> StopsClean(p, target.key, keep && alias, more)
      case Other => true
  }

  /** Nothing of m is lost where the walk stops, at embeddings below the type it started from. */
  ghost predicate LosesNothingAt(p: Program, t: TypeKey, keep: bool, os: seq<Opened>, depth: nat, at: nat, m: Method)
    decreases Unopened(p, Keys(os)), 0
  {
    if t in Keys(os) then
      depth == at && keep && (exists o <- os :: o.key == t && !o.keep) && Occurrences(p, t, true, [], m, 0) != []
      ==> Occurrences(p, t, false, [], m, 0) != []
    else if t !in p.decls then true
    else
      OpeningShrinks(p, Keys(os), t);
      KeysMore(os, Opened(t, keep));
      var more := os + [Opened(t, keep)];
      match p.decls[t]
      case Struct(fields) => forall f <- fields :: f.Embed? && f.target.Local? ==> LosesNothingAt(p, f.target.key, true, more, depth + 1, at, m)
      case Names(target, alias) => target.Local? ==> LosesNothingAt(p, target.key, keep && alias, more, depth, at, m)
      case Other => true
  }

  lemma {:induction false} CleanLosesNothing(p: Program, t: TypeKey, keep: bool, os: seq<Opened>, depth: nat, at: nat, m: Method)
    requires StopsClean(p, t, keep, os)
    ensures LosesNothingAt(p, t, keep, os, depth, at, m)
    decreases Unopened(p, Keys(os))
  {
    hide Occurrences;
    if t !in Keys(os) && t in p.decls {
      OpeningShrinks(p, Keys(os), t);
      KeysMore(os, Opened(t, keep));
      var more := os + [Opened(t, keep)];
      match p.decls[t]
      case Struct(fields) =>
        forall f | f in fields && f.Embed? && f.target.Local? ensures LosesNothingAt(p, f.target.key, true, more, depth + 1, at, m) {
          CleanLosesNothing(p, f.target.key, true, more, depth + 1, at, m);
        }
      case Names(target, alias) =>
        if target.Local? {
          CleanLosesNothing(p, target.key, keep && alias, more, depth, at, m);
        }
      case Other =>
    }
  }

  // ----- what keeping methods, or having passed fewer types, can only add

  lemma {:induction false} Widens(p: Program, t: TypeKey, keep: bool, seen: seq<TypeKey>, less: seq<TypeKey>, m: Method, d: nat)
    requires Occurrences(p, t, keep, seen, m, d) != [] && forall x <- less :: x in seen
    ensures Occurrences(p, t, true, less, m, d) != []
    decreases Unopened(p, less)
  {
    if t in p.decls && p.decls[t].Names? && p.decls[t].target.Local? && !(d == 0 && OwnOccurrence(p, t, m) != []) {
      OpeningShrinks(p, less, t);
      var k, alias := p.decls[t].target.key, p.decls[t].alias;
      if alias {
        Widens(p, k, keep, seen + [t], less + [t], m, d);
      } else {
        WidensSeen(p, k, seen + [t], less + [t], m, d);
      }
    }
  }

  lemma {:induction false} WidensSeen(p: Program, t: TypeKey, seen: seq<TypeKey>, less: seq<TypeKey>, m: Method, d: nat)
    requires Occurrences(p, t, false, seen, m, d) != [] && forall x <- less :: x in seen
    ensures Occurrences(p, t, false, less, m, d) != []
    decreases Unopened(p, less)
  {
    if t in p.decls && p.decls[t].Names? && p.decls[t].target.Local? {
      OpeningShrinks(p, less, t);
      WidensSeen(p, p.decls[t].target.key, seen + [t], less + [t], m, d);
    }
  }

  /** Below a type's own methods it does not matter whether it keeps them. */
  lemma {:induction false} KeptAlike(p: Program, t: TypeKey, seen: seq<TypeKey>, m: Method, d: nat)
    requires d > 0
    ensures Occurrences(p, t, true, seen, m, d) == Occurrences(p, t, false, seen, m, d)
    decreases Unopened(p, seen)
  {
    if t !in seen && t in p.decls && p.decls[t].Names? && p.decls[t].target.Local? {
      OpeningShrinks(p, seen, t);
      KeptAlike(p, p.decls[t].target.key, seen + [t], m, d);
    }
  }

  lemma {:induction false} BelowFinds(p: Program, fields: seq<Field>, f: Field, m: Method, d: nat)
    requires f in fields && f.Embed? && OccurrencesAt(p, f.target, true, [], m, d) != []
    ensures OccurrencesBelow(p, fields, m, d) != []
    decreases |fields|
  {
    var rest, last := fields[..|fields| - 1], fields[|fields| - 1];
    if f == last {
      assert |LiftAll(OccurrencesAt(p, f.target, true, [], m, d), f)| > 0;
    } else {
      assert f in rest;
      BelowFinds(p, rest, f, m, d);
    }
  }

  // ----- the types on a path

  /** o leads to next by name: an alias keeps methods, a defined type drops them. */
  predicate LeadsTo(p: Program, o: Opened, next: Opened) {
    && o.key in p.decls && p.decls[o.key].Names?
    && p.decls[o.key].target == Local(next.key) && next.keep == (o.keep && p.decls[o.key].alias)
  }

  predicate IsChain(p: Program, os: seq<Opened>) {
    forall i | 0 < i < |os| :: LeadsTo(p, os[i - 1], os[i])
  }

  /** On a chain that ends in a struct, what was passed before it does not matter. */
  lemma {:induction false} PassedIrrelevant(p: Program, os: seq<Opened>, seen: seq<TypeKey>, less: seq<TypeKey>, m: Method, d: nat)
    requires |os| > 0 && IsChain(p, os)
    requires os[|os| - 1].key in p.decls && p.decls[os[|os| - 1].key].Struct?
    requires forall i, j | 0 <= i < j < |os| :: os[i].key != os[j].key
    requires forall o <- os :: o.key !in seen && o.key !in less
    ensures Occurrences(p, os[0].key, os[0].keep, seen, m, d) == Occurrences(p, os[0].key, os[0].keep, less, m, d)
    decreases |os|
  {
    if |os| > 1 {
      assert LeadsTo(p, os[0], os[1]);
      assert forall i | 0 < i < |os[1..]| :: LeadsTo(p, os[1..][i - 1], os[1..][i]) by {
        forall i | 0 < i < |os[1..]| ensures LeadsTo(p, os[1..][i - 1], os[1..][i]) {
          assert LeadsTo(p, os[i], os[i + 1]);
        }
      }
      PassedIrrelevant(p, os[1..], seen + [os[0].key], less + [os[0].key], m, d);
    }
  }

  /** What stands below o stands, that much deeper, below the type the walk started from. */
  ghost predicate Honest(p: Program, root: Opened, o: Opened, seen: seq<TypeKey>, at: nat, m: Method) {
    forall d: nat | Occurrences(p, o.key, o.keep, seen, m, d) != [] ::
      Occurrences(p, root.key, root.keep, [], m, at + d) != []
  }

  /**
   The walk from root is inside os.  Those from chain on are the names passed
   since the last embedded field; at says how many embeddings each stands below.
   */
  ghost predicate Inside(p: Program, root: Opened, os: seq<Opened>, at: seq<nat>, chain: nat, t: Opened, depth: nat, m: Method) {
    && |at| == |os| && chain <= |os|
    && (forall i, j | 0 <= i < j < |os| :: os[i].key != os[j].key)
    && (forall i | 0 <= i < chain :: at[i] < depth && Honest(p, root, os[i], [], at[i], m))
    && (forall i | chain <= i < |os| :: at[i] == depth && Honest(p, root, os[i], Keys(os[chain..i]), depth, m))
    && IsChain(p, os[chain..] + [t])
    && Honest(p, root, t, Keys(os[chain..]), depth, m)
  }

  /** No occurrence below root is shallower than d. */
  ghost predicate NoneAbove(p: Program, root: Opened, m: Method, d: nat) {
    forall e: nat | e < d :: Occurrences(p, root.key, root.keep, [], m, e) == []
  }

  /** A type met again stands deeper than it did, so nothing below it is shallowest. */
  lemma StoppedIsShadowed(p: Program, root: Opened, os: seq<Opened>, at: seq<nat>, chain: nat, t: Opened, depth: nat, m: Method, d: nat)
    requires Inside(p, root, os, at, chain, t, depth, m) && NoneAbove(p, root, m, depth + d)
    requires t.key in Keys(os) && LosesNothingAt(p, t.key, t.keep, os, depth, depth + d, m)
    ensures Occurrences(p, t.key, t.keep, Keys(os[chain..]), m, d) == []
  {
    var i :| 0 <= i < |os| && Keys(os)[i] == t.key;
    if i >= chain {
      assert Keys(os[chain..])[i - chain] == t.key;
    } else {
      assert os[i] in os;
      assert Honest(p, root, os[i], [], at[i], m);
      assert Occurrences(p, root.key, root.keep, [], m, at[i] + d) == [];
      if Occurrences(p, t.key, t.keep, Keys(os[chain..]), m, d) != [] {
        if os[i].keep {
          Widens(p, t.key, t.keep, Keys(os[chain..]), [], m, d);
        } else if t.keep {
          Widens(p, t.key, true, Keys(os[chain..]), [], m, d);
          if d > 0 {
            KeptAlike(p, t.key, [], m, d);
          }
        } else {
          WidensSeen(p, t.key, Keys(os[chain..]), [], m, d);
        }
      }
    }
  }

  /** Following a name goes on with the same chain. */
  lemma InsideName(p: Program, root: Opened, os: seq<Opened>, at: seq<nat>, chain: nat, t: Opened, depth: nat, m: Method, next: Opened)
    requires Inside(p, root, os, at, chain, t, depth, m) && t.key !in Keys(os) && LeadsTo(p, t, next)
    ensures Inside(p, root, os + [t], at + [depth], chain, next, depth, m)
  {
    var more, mat := os + [t], at + [depth];
    forall i, j | 0 <= i < j < |more| ensures more[i].key != more[j].key {
      assert i < |os| && Keys(os)[i] == os[i].key;
    }
    assert more[chain..] == os[chain..] + [t];
    forall i | chain <= i < |more| ensures mat[i] == depth && Honest(p, root, more[i], Keys(more[chain..i]), depth, m) {
      assert more[chain..i] == if i < |os| then os[chain..i] else os[chain..];
    }
    forall i | 0 <= i < chain ensures mat[i] < depth && Honest(p, root, more[i], [], mat[i], m) {
      assert Honest(p, root, os[i], [], at[i], m);
    }
    var path := more[chain..] + [next];
    forall i | 0 < i < |path| ensures LeadsTo(p, path[i - 1], path[i]) {
      if i < |path| - 1 {
        assert path[i] == (os[chain..] + [t])[i] && path[i - 1] == (os[chain..] + [t])[i - 1];
      }
    }
    KeysMore(os[chain..], t);
    forall d: nat | Occurrences(p, next.key, next.keep, Keys(more[chain..]), m, d) != []
      ensures Occurrences(p, root.key, root.keep, [], m, depth + d) != []
    {
      NotPassed(os, chain, t.key);
      assert Occurrences(p, t.key, t.keep, Keys(os[chain..]), m, d) != [];
    }
  }

  /** An embedded field starts a new chain, one embedding deeper. */
  lemma InsideEmbed(p: Program, root: Opened, os: seq<Opened>, at: seq<nat>, chain: nat, t: Opened, depth: nat, m: Method, f: Field)
    requires Inside(p, root, os, at, chain, t, depth, m) && t.key !in Keys(os)
    requires t.key in p.decls && p.decls[t.key].Struct? && f in p.decls[t.key].fields && f.Embed? && f.target.Local?
    ensures Inside(p, root, os + [t], at + [depth], |os| + 1, Opened(f.target.key, true), depth + 1, m)
  {
    var more, mat, next := os + [t], at + [depth], Opened(f.target.key, true);
    forall i, j | 0 <= i < j < |more| ensures more[i].key != more[j].key {
      assert i < |os| && Keys(os)[i] == os[i].key;
    }
    forall i | 0 <= i < |more| ensures mat[i] < depth + 1 && Honest(p, root, more[i], [], mat[i], m) {
      if i < chain {
        assert Honest(p, root, os[i], [], at[i], m);
      } else {
        ChainHonest(p, root, os, at, chain, t, depth, m, i);
      }
    }
    assert more[|os| + 1..] == [] && Keys([]) == [];
    forall d: nat | Occurrences(p, next.key, true, [], m, d) != []
      ensures Occurrences(p, root.key, root.keep, [], m, depth + 1 + d) != []
    {
      BelowFinds(p, p.decls[t.key].fields, f, m, d);
      NotPassed(os, chain, t.key);
      assert Occurrences(p, t.key, t.keep, Keys(os[chain..]), m, d + 1) != [];
      assert depth + (d + 1) == depth + 1 + d;
    }
  }

  lemma NotPassed(os: seq<Opened>, chain: nat, key: TypeKey)
    requires chain <= |os| && key !in Keys(os)
    ensures key !in Keys(os[chain..])
  {
    forall i | 0 <= i < |os[chain..]| ensures Keys(os[chain..])[i] != key {
      assert Keys(os)[chain + i] == os[chain + i].key;
    }
  }

  /** Every name on a chain that ends in a struct stands where the chain does. */
  lemma ChainHonest(p: Program, root: Opened, os: seq<Opened>, at: seq<nat>, chain: nat, t: Opened, depth: nat, m: Method, i: nat)
    requires Inside(p, root, os, at, chain, t, depth, m) && t.key !in Keys(os)
    requires t.key in p.decls && p.decls[t.key].Struct? && chain <= i <= |os|
    ensures Honest(p, root, (os + [t])[i], [], depth, m)
  {
    var more := os + [t];
    var path, passed := more[i..], Keys(more[chain..i]);
    assert more[chain..] == os[chain..] + [t];
    forall j | 0 < j < |path| ensures LeadsTo(p, path[j - 1], path[j]) {
      assert path[j] == more[chain..][i - chain + j] && path[j - 1] == more[chain..][i - chain + j - 1];
    }
    forall a, b | 0 <= a < b < |more| ensures more[a].key != more[b].key {
      assert a < |os| && Keys(os)[a] == os[a].key;
    }
    forall o | o in path ensures o.key !in passed {
      var j :| 0 <= j < |path| && path[j] == o;
      assert more[i + j] == o;
      forall k | 0 <= k < |passed| ensures passed[k] != o.key {
        assert passed[k] == more[chain + k].key;
      }
    }
    assert path[|path| - 1] == t;
    assert more[chain..i] == os[chain..i];
    forall d: nat | Occurrences(p, more[i].key, more[i].keep, [], m, d) != []
      ensures Occurrences(p, root.key, root.keep, [], m, depth + d) != []
    {
      PassedIrrelevant(p, path, [], passed, m, d);
      assert if i < |os| then Honest(p, root, os[i], passed, depth, m) else Honest(p, root, t, passed, depth, m);
    }
  }

  // ----- the walk meets every occurrence that can be shallowest

  lemma {:induction false} MeetsAll(p: Program, root: Opened, os: seq<Opened>, at: seq<nat>, chain: nat, t: Opened, depth: nat, m: Method, d: nat)
    requires Inside(p, root, os, at, chain, t, depth, m) && chain <= |os| && NoneAbove(p, root, m, depth + d)
    requires LosesNothingAt(p, t.key, t.keep, os, depth, depth + d, m)
    ensures Met(p, t.key, t.keep, Keys(os), m, d) == Occurrences(p, t.key, t.keep, Keys(os[chain..]), m, d)
    decreases Unopened(p, Keys(os)), 1
  {
    hide Inside, NoneAbove, Honest, IsChain, LosesNothingAt, HasField;
    if t.key in Keys(os) {
      StoppedIsShadowed(p, root, os, at, chain, t, depth, m, d);
    } else {
      NotPassed(os, chain, t.key);
      OpenedUnfold(p, t, Keys(os), Keys(os[chain..]), m, d);
      hide Met, Occurrences;
      if t.key in p.decls && !(d == 0 && t.keep && OwnOccurrence(p, t.key, m) != []) {
        match p.decls[t.key]
        case Struct(fields) =>
          if d > 0 {
            MeetsBelow(p, root, os, at, chain, t, depth, m, d, |fields|);
            assert fields[..|fields|] == fields;
          }
        case Names(_, _) => MeetsName(p, root, os, at, chain, t, depth, m, d);
        case Other =>
      }
    }
  }

  /** Where a type is opened, the walk and the unfolding part only in what they do below. */
  lemma OpenedUnfold(p: Program, t: Opened, open: seq<TypeKey>, passed: seq<TypeKey>, m: Method, d: nat)
    requires t.key !in open && t.key !in passed
    ensures t.key in p.decls && p.decls[t.key].Struct? && d > 0 ==>
              && Met(p, t.key, t.keep, open, m, d) == MetBelow(p, p.decls[t.key].fields, open + [t.key], m, d - 1)
              && Occurrences(p, t.key, t.keep, passed, m, d) == OccurrencesBelow(p, p.decls[t.key].fields, m, d - 1)
    ensures !(t.key in p.decls && !p.decls[t.key].Other? && !(d == 0 && t.keep && OwnOccurrence(p, t.key, m) != []))
            || (p.decls[t.key].Struct? && d == 0) ==>
              Met(p, t.key, t.keep, open, m, d) == Occurrences(p, t.key, t.keep, passed, m, d)
  {
    if t.key in p.decls {
      OpeningShrinks(p, open, t.key);
      OpeningShrinks(p, passed, t.key);
    }
  }

  lemma {:induction false} MeetsName(p: Program, root: Opened, os: seq<Opened>, at: seq<nat>, chain: nat, t: Opened, depth: nat, m: Method, d: nat)
    requires Inside(p, root, os, at, chain, t, depth, m) && chain <= |os| && NoneAbove(p, root, m, depth + d)
    requires LosesNothingAt(p, t.key, t.keep, os, depth, depth + d, m) && t.key !in Keys(os) && t.key !in Keys(os[chain..])
    requires t.key in p.decls && p.decls[t.key].Names? && !(d == 0 && t.keep && OwnOccurrence(p, t.key, m) != [])
    ensures Met(p, t.key, t.keep, Keys(os), m, d) == Occurrences(p, t.key, t.keep, Keys(os[chain..]), m, d)
    decreases Unopened(p, Keys(os)), 0, 0
  {
    hide Inside, NoneAbove, Honest, IsChain, LosesNothingAt;
    var target, keep := p.decls[t.key].target, t.keep && p.decls[t.key].alias;
    OpeningShrinks(p, Keys(os), t.key);
    NamesUnfold(p, t, Keys(os), Keys(os[chain..]), m, d);
    hide Met, Occurrences;
    if target.Local? {
      var next := Opened(target.key, keep);
      LossName(p, os, t, depth, depth + d, m);
      InsideName(p, root, os, at, chain, t, depth, m, next);
      KeysMore(os, t);
      KeysMore(os[chain..], t);
      assert (os + [t])[chain..] == os[chain..] + [t];
      MeetsAll(p, root, os + [t], at + [depth], chain, next, depth, m, d);
    }
  }

  /** Past a type that only names another, the walk and the unfolding look at what it names. */
  lemma NamesUnfold(p: Program, t: Opened, open: seq<TypeKey>, passed: seq<TypeKey>, m: Method, d: nat)
    requires t.key !in open && t.key !in passed
    requires t.key in p.decls && p.decls[t.key].Names? && !(d == 0 && t.keep && OwnOccurrence(p, t.key, m) != [])
    ensures var target, keep := p.decls[t.key].target, t.keep && p.decls[t.key].alias;
            && Met(p, t.key, t.keep, open, m, d) == MetAt(p, target, keep, open + [t.key], m, d)
            && Occurrences(p, t.key, t.keep, passed, m, d) == OccurrencesAt(p, target, keep, passed + [t.key], m, d)
  {
    OpeningShrinks(p, open, t.key);
    OpeningShrinks(p, passed, t.key);
  }

  lemma LossBelow(p: Program, os: seq<Opened>, t: Opened, f: Field, depth: nat, at: nat, m: Method)
    requires LosesNothingAt(p, t.key, t.keep, os, depth, at, m) && t.key !in Keys(os) && t.key in p.decls && p.decls[t.key].Struct?
    requires f in p.decls[t.key].fields && f.Embed? && f.target.Local?
    ensures LosesNothingAt(p, f.target.key, true, os + [t], depth + 1, at, m)
  {
    assert t == Opened(t.key, t.keep);
  }

  lemma LossName(p: Program, os: seq<Opened>, t: Opened, depth: nat, at: nat, m: Method)
    requires LosesNothingAt(p, t.key, t.keep, os, depth, at, m) && t.key !in Keys(os)
    requires t.key in p.decls && p.decls[t.key].Names? && p.decls[t.key].target.Local?
    ensures LosesNothingAt(p, p.decls[t.key].target.key, t.keep && p.decls[t.key].alias, os + [t], depth, at, m)
  {
    assert t == Opened(t.key, t.keep);
  }

  lemma {:induction false} MeetsBelow(p: Program, root: Opened, os: seq<Opened>, at: seq<nat>, chain: nat, t: Opened, depth: nat, m: Method, d: nat, n: nat)
    requires Inside(p, root, os, at, chain, t, depth, m) && NoneAbove(p, root, m, depth + d) && d > 0
    requires LosesNothingAt(p, t.key, t.keep, os, depth, depth + d, m) && t.key !in Keys(os)
    requires t.key in p.decls && p.decls[t.key].Struct? && n <= |p.decls[t.key].fields|
    ensures MetBelow(p, p.decls[t.key].fields[..n], Keys(os) + [t.key], m, d - 1) == OccurrencesBelow(p, p.decls[t.key].fields[..n], m, d - 1)
    decreases Unopened(p, Keys(os)), 0, n
  {
    hide Inside, NoneAbove, Honest, IsChain, LosesNothingAt, Met, Occurrences;
    if n > 0 {
      var fields := p.decls[t.key].fields;
      var f := fields[n - 1];
      assert fields[..n][..n - 1] == fields[..n - 1];
      MeetsBelow(p, root, os, at, chain, t, depth, m, d, n - 1);
      if f.Embed? && f.target.Local? {
        var more := os + [t];
        OpeningShrinks(p, Keys(os), t.key);
        KeysMore(os, t);
        InsideEmbed(p, root, os, at, chain, t, depth, m, f);
        LossBelow(p, os, t, f, depth, depth + d, m);
        MeetsAll(p, root, more, at + [depth], |more|, Opened(f.target.key, true), depth + 1, m, d - 1);
        assert more[|more|..] == [] && Keys([]) == [];
      }
    }
  }

  /** At the shallowest depth m stands at, what the walk meets is what there is, where it loses nothing there. */
  lemma MeetsAtDepth(p: Program, t: TypeKey, keep: bool, m: Method, d: nat)
    requires NoneAbove(p, Opened(t, keep), m, d) && LosesNothingAt(p, t, keep, [], 0, d, m)
    ensures Met(p, t, keep, [], m, d) == Occurrences(p, t, keep, [], m, d)
  {
    var root := Opened(t, keep);
    var none: seq<Opened> := [];
    assert Keys(none) == [] && none[0..] == [];
    assert none[0..] + [root] == [root] && IsChain(p, [root]);
    assert Inside(p, root, [], [], 0, root, 0, m);
    MeetsAll(p, root, [], [], 0, root, 0, m, d);
  }

  /** Down to the shallowest depth, what the walk meets is what there is. */
  lemma {:induction false} MeetsDownTo(p: Program, t: TypeKey, keep: bool, m: Method, d: nat)
    requires StopsClean(p, t, keep, [])
    requires forall e: nat | e < d :: Met(p, t, keep, [], m, e) == []
    ensures forall e: nat | e <= d :: Met(p, t, keep, [], m, e) == Occurrences(p, t, keep, [], m, e)
    decreases d
  {
    if d > 0 {
      MeetsDownTo(p, t, keep, m, d - 1);
    }
    CleanLosesNothing(p, t, keep, [], 0, d, m);
    MeetsAtDepth(p, t, keep, m, d);
  }

  /**
   Go's rule, exactly: the walk's entry for m is the one at the shallowest depth
   of the infinite unfolding, ambiguous if and only if m occurs there more than
   once, and absent if and only if m occurs nowhere.
   */
  lemma WalkIsExact(p: Program, t: TypeKey, keep: bool, m: Method)
    requires StopsClean(p, t, keep, [])
    ensures Selects(Get(Walk(p, t, keep, []), m), (d: nat) => Occurrences(p, t, keep, [], m, d))
  {
    var e := Get(Walk(p, t, keep, []), m);
    var met := ByDepth(p, t, keep, [], m);
    var all: nat -> seq<Occurrence> := (d: nat) => Occurrences(p, t, keep, [], m, d);
    WalkSelects(p, t, keep, [], m);
    if e.None? {
      forall d: nat ensures all(d) == [] {
        assert forall x: nat :: met(x) == Met(p, t, keep, [], m, x);
        MeetsDownTo(p, t, keep, m, d);
        assert met(d) == [];
      }
    } else {
      assert forall x: nat :: met(x) == Met(p, t, keep, [], m, x);
      MeetsDownTo(p, t, keep, m, e.value.depth);
      assert forall x: nat | x <= e.value.depth :: met(x) == all(x);
    }
  }

  // ----- where it fails

  const S: TypeKey := "S"
  const D: TypeKey := "D"
  const M: Method := "MarshalJSON"

  /** `type S struct { *S }`, with a method of its own, and `type D S`. */
  const SELF_EMBED := Program(
    map[S := Struct([Embed(Local(S), true, S, S)]), D := Names(Local(S), false)],
    map[S := map[M := Own(true, false)]])

  lemma SelfEmbedOccurs()
    ensures Occurrences(SELF_EMBED, D, true, [], M, 1) != []
  {
    var p := SELF_EMBED;
    var fields, f := p.decls[S].fields, Embed(Local(S), true, S, S);
    assert f in fields && f.target == Local(S);
    assert Occurrences(p, S, true, [], M, 0) == OwnOccurrence(p, S, M);
    assert OccurrencesAt(p, Local(S), true, [], M, 0) != [];
    BelowFinds(p, fields, f, M, 0);
    assert [] + [D] == [D] && Occurrences(p, S, false, [D], M, 1) == OccurrencesBelow(p, fields, M, 0);
  }

  lemma SelfEmbedStops()
    ensures M !in Walk(SELF_EMBED, D, true, [])
  {
    assert S[0] != D[0] && |M| != |S|;
    DefinedOverSelfEmbed(SELF_EMBED, S, D, M);
  }

  lemma SelfEmbedWithoutMethods(p: Program, s: TypeKey, open: seq<TypeKey>, m: Method)
    requires s in p.decls && p.decls[s] == Struct([Embed(Local(s), true, s, s)]) && s !in open && m != s
    ensures m !in Walk(p, s, false, open)
  {
    hide JSON_METHODS, Promote, WithFields;
    var f := Embed(Local(s), true, s, s);
    OpeningShrinks(p, open, s);
    assert Walk(p, s, true, open + [s]) == map[];
    OneEmbed(p, f, open + [s]);
    OnlyFieldNames([f]);
    assert WalkRhs(p, p.decls[s], false, open + [s]) == WithFields(map[], [f]);
  }

  lemma DefinedOverSelfEmbed(p: Program, s: TypeKey, d: TypeKey, m: Method)
    requires s in p.decls && p.decls[s] == Struct([Embed(Local(s), true, s, s)])
    requires d in p.decls && p.decls[d] == Names(Local(s), false) && d !in p.methods && s != d && m != s
    ensures m !in Walk(p, d, true, [])
  {
    hide JSON_METHODS, Promote, WithFields, WalkEmbeds;
    OpeningShrinks(p, [], d);
    assert [] + [d] == [d];
    SelfEmbedWithoutMethods(p, s, [d], m);
    assert WalkRhs(p, p.decls[d], true, [d]) == WalkTarget(p, Local(s), false, [d]);
    assert WalkTarget(p, Local(s), false, [d]) == Walk(p, s, false, [d]);
  }

  lemma OnlyFieldNames(fields: seq<Field>)
    ensures forall m <- WithFields(map[], fields) :: exists f <- fields :: f.name == m
  {
  }

  lemma OneEmbed(p: Program, f: Field, open: seq<TypeKey>)
    requires f.Embed? && WalkTarget(p, f.target, true, open) == map[]
    ensures Promote(WalkEmbeds(p, [f], open)) == map[]
  {
    var em := EmbedMethods(f.via, map[], f.ptr);
    assert [f][..0] == [] && WalkEmbeds(p, [], open) == [];
    assert WalkEmbeds(p, [f], open) == [] + [em] == [em];
    assert [em][..0] == [];
    assert Promote([]) == map[] && Promote([em]) == AddEmbed(map[], em);
  }

  lemma SelfEmbedUnclean()
    ensures !StopsClean(SELF_EMBED, D, true, [])
  {
    var p := SELF_EMBED;
    var os, f := [Opened(D, true)], Embed(Local(S), true, S, S);
    var more := os + [Opened(S, false)];
    assert Keys(os) == [D] && Keys([]) == [] && Keys(more) == [D, S];
    assert more[1] == Opened(S, false) && !StopsClean(p, S, true, more);
    assert f in p.decls[S].fields && f.target.key == S;
    assert !StopsClean(p, S, false, os);
    assert [] + os == os;
  }

  /** D promotes the method through the S it embeds, and the walk does not see it. */
  lemma DefinedTypeLosesMethod()
    ensures Occurrences(SELF_EMBED, D, true, [], M, 1) != []
    ensures M !in Walk(SELF_EMBED, D, true, [])
    ensures !StopsClean(SELF_EMBED, D, true, [])
  {
    SelfEmbedOccurs();
    SelfEmbedStops();
    SelfEmbedUnclean();
  }
}
