/**
 The anonymous structs an expansion is inside of, and the classes of those
 found on a cycle with one another, which decide which are cut.
 */
module LiteralCycles {
  import opened Wrappers

  /** An anonymous struct, by its position in the source. */
  type Literal = string

  const MAX_DEPTH: nat := 1000
  const MAX_EXTRACTIONS: nat := 1000

  /** An expansion: cut at a cycle, at the depth or size limit, or the expansions of the fields. */
  datatype Tree = Cycle | TooDeep | TooMany | Expanded(literal: Literal, fields: Trees)

  datatype Trees = NoTrees | Grown(head: Tree, tail: Trees)

  /** The anonymous structs open, outermost first, the cycle classes found, and how many were opened. */
  datatype State = State(open: seq<Literal>, cycles: map<Literal, Literal>, extracts: nat)

  // ----- cycle classes: a forest of links to representatives

  function Follow(cycles: map<Literal, Literal>, k: Literal, steps: nat): Literal
    decreases steps
  {
    if steps == 0 || k !in cycles then k else Follow(cycles, cycles[k], steps - 1)
  }

  function Root(cycles: map<Literal, Literal>, k: Literal): Literal {
    Follow(cycles, k, |cycles|)
  }

  /** Every chain of links ends, within as many steps as there are links. */
  ghost predicate Forest(cycles: map<Literal, Literal>) {
    forall k :: Root(cycles, k) !in cycles
  }

  predicate SameClass(cycles: map<Literal, Literal>, a: Literal, b: Literal) {
    Root(cycles, a) == Root(cycles, b)
  }

  lemma {:induction false} FollowJoined(cycles: map<Literal, Literal>, r: Literal, root: Literal, k: Literal, n: nat)
    requires r !in cycles && root !in cycles && r != root && Follow(cycles, k, n) !in cycles
    ensures Follow(cycles[r := root], k, n + 1) == if Follow(cycles, k, n) == r then root else Follow(cycles, k, n)
    ensures Follow(cycles[r := root], k, n + 1) !in cycles[r := root]
    decreases n
  {
    var joined := cycles[r := root];
    if n > 0 && k in cycles {
      FollowJoined(cycles, r, root, cycles[k], n - 1);
    } else if k == r {
      assert Follow(joined, root, n) == root;
    }
  }

  /** Linking one root to another keeps a forest, and moves one class into the other. */
  lemma LinkJoins(cycles: map<Literal, Literal>, r: Literal, root: Literal)
    requires Forest(cycles) && r !in cycles && root !in cycles && r != root
    ensures Forest(cycles[r := root])
    ensures forall k :: Root(cycles[r := root], k) == if Root(cycles, k) == r then root else Root(cycles, k)
  {
    var joined := cycles[r := root];
    assert |joined| == |cycles| + 1;
    forall k ensures Root(joined, k) !in joined && Root(joined, k) == if Root(cycles, k) == r then root else Root(cycles, k) {
      assert Root(cycles, k) !in cycles;
      FollowJoined(cycles, r, root, k, |cycles|);
    }
  }

  /** Puts every literal of keys into root's class. */
  function JoinAll(cycles: map<Literal, Literal>, root: Literal, keys: seq<Literal>): map<Literal, Literal>
    decreases |keys|
  {
    if keys == [] then cycles
    else
      var r := Root(cycles, keys[0]);
      JoinAll(if r != root then cycles[r := root] else cycles, root, keys[1..])
  }

  /** Classes only grow, and every key joins. */
  lemma {:induction false} JoinGrows(cycles: map<Literal, Literal>, root: Literal, keys: seq<Literal>)
    requires Forest(cycles) && root !in cycles
    ensures Forest(JoinAll(cycles, root, keys)) && root !in JoinAll(cycles, root, keys)
    ensures forall k <- keys :: Root(JoinAll(cycles, root, keys), k) == root
    ensures forall a, b | SameClass(cycles, a, b) :: SameClass(JoinAll(cycles, root, keys), a, b)
    ensures forall k | Root(cycles, k) == root :: Root(JoinAll(cycles, root, keys), k) == root
    decreases |keys|
  {
    if keys != [] {
      var r := Root(cycles, keys[0]);
      var next := if r != root then cycles[r := root] else cycles;
      if r != root {
        LinkJoins(cycles, r, root);
      }
      RootIsItself(cycles, root);
      JoinGrows(next, root, keys[1..]);
      assert forall k <- keys :: k == keys[0] || k in keys[1..];
    }
  }

  lemma RootIsItself(cycles: map<Literal, Literal>, root: Literal)
    requires root !in cycles
    ensures Root(cycles, root) == root
  {
  }

  // ----- expanding

  /** The first open literal of k's class, |open| when there is none. */
  function FirstOpen(st: State, k: Literal, from: nat): (i: nat)
    requires from <= |st.open|
    ensures from <= i <= |st.open|
    ensures i < |st.open| ==> SameClass(st.cycles, st.open[i], k)
    ensures forall j | from <= j < i :: !SameClass(st.cycles, st.open[j], k)
    decreases |st.open| - from
  {
    if from == |st.open| then from
    else if SameClass(st.cycles, st.open[from], k) then from
    else FirstOpen(st, k, from + 1)
  }

  predicate Closes(st: State, k: Literal) {
    FirstOpen(st, k, 0) < |st.open|
  }

  /** Those opened after the first of k's class are on a cycle with it. */
  function Joined(st: State, k: Literal): State
    requires Closes(st, k)
  {
    st.(cycles := JoinAll(st.cycles, Root(st.cycles, k), st.open[FirstOpen(st, k, 0) + 1..]))
  }

  function Opened(st: State, k: Literal): State {
    State(st.open + [k], st.cycles, if st.open == [] then 1 else st.extracts + 1)
  }

  /** Closing the outermost literal forgets the classes. */
  function Closed(st: State): State
    requires st.open != []
  {
    var open := st.open[..|st.open| - 1];
    State(open, if open == [] then map[] else st.cycles, st.extracts)
  }

  // ----- what every expansion keeps

  ghost predicate Sane(st: State) {
    && Forest(st.cycles)
    && (forall i, j | 0 <= i < j < |st.open| :: st.open[i] != st.open[j])
    && (st.open == [] ==> st.cycles == map[])
    && (st.open != [] ==> st.extracts <= MAX_EXTRACTIONS)
  }

  /** What was in one class stays in one. */
  ghost predicate Grew(st: State, r: State) {
    forall a, b | SameClass(st.cycles, a, b) :: SameClass(r.cycles, a, b)
  }

  function Size(t: Tree): nat {
    if t.Expanded? then 1 + SizeAll(t.fields) else 0
  }

  function SizeAll(ts: Trees): nat {
    match ts
    case NoTrees => 0
    case Grown(head, tail) => Size(head) + SizeAll(tail)
  }

  /** No literal stands inside itself, or inside one already open. */
  predicate NoneInside(t: Tree, open: seq<Literal>) {
    t.Expanded? ==> t.literal !in open && NoneInsideAll(t.fields, open + [t.literal])
  }

  predicate NoneInsideAll(ts: Trees, open: seq<Literal>) {
    match ts
    case NoTrees => true
    case Grown(head, tail) => NoneInside(head, open) && NoneInsideAll(tail, open)
  }

  lemma OpenIsSane(st: State, k: Literal)
    requires Sane(st) && !Closes(st, k) && (st.open == [] || st.extracts < MAX_EXTRACTIONS)
    ensures Sane(Opened(st, k)) && k !in st.open
  {
    forall i | 0 <= i < |st.open| ensures st.open[i] != k {
      assert !SameClass(st.cycles, st.open[i], k);
    }
  }

  lemma JoinIsSane(st: State, k: Literal)
    requires Sane(st) && Closes(st, k)
    ensures Sane(Joined(st, k)) && Grew(st, Joined(st, k))
  {
    var i := FirstOpen(st, k, 0);
    JoinGrows(st.cycles, Root(st.cycles, k), st.open[i + 1..]);
  }

  lemma NoLinks()
    ensures Forest(map[])
  {
  }

  lemma CloseIsSane(st: State)
    requires Sane(st) && st.open != []
    ensures Sane(Closed(st))
  {
    NoLinks();
  }

  function Append(a: Trees, b: Trees): Trees {
    match a
    case NoTrees => b
    case Grown(head, tail) => Grown(head, Append(tail, b))
  }

  lemma {:induction false} AppendFacts(a: Trees, b: Trees, open: seq<Literal>)
    ensures SizeAll(Append(a, b)) == SizeAll(a) + SizeAll(b)
    ensures NoneInsideAll(Append(a, b), open) <==> NoneInsideAll(a, open) && NoneInsideAll(b, open)
    ensures AllWithin(Append(a, b)) <==> AllWithin(a) && AllWithin(b)
    decreases a
  {
    if a.Grown? {
      AppendFacts(a.tail, b, open);
    }
  }

  /** No tree has more than the limit of expanded literals. */
  predicate AllWithin(ts: Trees) {
    match ts
    case NoTrees => true
    case Grown(head, tail) => Size(head) <= MAX_EXTRACTIONS && AllWithin(tail)
  }

  /** Closing a cycle puts every literal opened since into its class. */
  lemma CycleJoins(st: State, i: nat)
    requires Sane(st) && i < |st.open|
    ensures var r := Joined(st, st.open[i]);
            Closes(st, st.open[i]) && forall j | i <= j < |st.open| :: SameClass(r.cycles, st.open[j], st.open[i])
  {
    var k := st.open[i];
    var first := FirstOpen(st, k, 0);
    assert Closes(st, k) && first <= i;
    var tail := st.open[first + 1..];
    JoinGrows(st.cycles, Root(st.cycles, k), tail);
    var r := Joined(st, k);
    assert Root(r.cycles, k) == Root(st.cycles, k);
    forall j | i <= j < |st.open| ensures SameClass(r.cycles, st.open[j], k) {
      if j > first {
        assert tail[j - first - 1] == st.open[j];
      }
    }
  }

  // ----- the analyzer's state

  class LiteralExpander {
    var openLiterals: seq<Literal>
    var literalCycles: map<Literal, Literal>
    var literalExtracts: nat

    ghost function Current(): State
      reads this
    {
      State(openLiterals, literalCycles, literalExtracts)
    }

    constructor ()
      ensures Sane(Current()) && openLiterals == []
    {
      openLiterals := [];
      literalCycles := map[];
      literalExtracts := 0;
    }

    /** The representative of key's class: the loop ends because the links are a forest. */
    method LiteralCycleRoot(key: Literal) returns (root: Literal)
      requires Forest(literalCycles)
      ensures root == Root(literalCycles, key)
    {
      root := key;
      ghost var steps: nat := |literalCycles|;
      assert Root(literalCycles, key) !in literalCycles;
      while root in literalCycles
        invariant Follow(literalCycles, root, steps) == Root(literalCycles, key)
        invariant Root(literalCycles, key) !in literalCycles
        decreases steps
      {
        root := literalCycles[root];
        steps := steps - 1;
      }
    }

    method JoinLiteralCycle(root: Literal, keys: seq<Literal>)
      requires Forest(literalCycles) && root !in literalCycles
      modifies this`literalCycles
      ensures literalCycles == JoinAll(old(literalCycles), root, keys)
    {
      var i := 0;
      assert keys[0..] == keys;
      while i < |keys|
        invariant 0 <= i <= |keys| && Forest(literalCycles) && root !in literalCycles
        invariant JoinAll(old(literalCycles), root, keys) == JoinAll(literalCycles, root, keys[i..])
      {
        assert keys[i..][1..] == keys[i + 1..];
        var r := LiteralCycleRoot(keys[i]);
        if r != root {
          LinkJoins(literalCycles, r, root);
          literalCycles := literalCycles[r := root];
        }
        i := i + 1;
      }
      assert keys[i..] == [];
    }

    /** Whether key is to be cut, because it is on a cycle with an open literal. */
    method ClosesLiteralCycle(key: Literal) returns (closes: bool)
      requires Sane(Current())
      modifies this`literalCycles
      ensures closes == Closes(old(Current()), key)
      ensures Current() == if closes then Joined(old(Current()), key) else old(Current())
    {
      ghost var st := Current();
      assert Forest(st.cycles) && Root(st.cycles, key) !in st.cycles;
      hide Forest, Sane, Root, JoinAll;
      var root := LiteralCycleRoot(key);
      var i := 0;
      while i < |openLiterals|
        invariant 0 <= i <= |openLiterals| && Current() == st
        invariant FirstOpen(st, key, 0) == FirstOpen(st, key, i)
      {
        var r := LiteralCycleRoot(openLiterals[i]);
        if r == root {
          JoinLiteralCycle(root, openLiterals[i + 1..]);
          return true;
        }
        i := i + 1;
      }
      return false;
    }

    /** Opens a literal; the outermost starts the count anew. */
    method OpenLiteral(key: Literal)
      requires Sane(Current()) && !Closes(Current(), key) && (openLiterals == [] || literalExtracts < MAX_EXTRACTIONS)
      modifies this
      ensures Sane(Current()) && Current() == Opened(old(Current()), key)
    {
      OpenIsSane(Current(), key);
      hide Sane, Forest, Closes, FirstOpen;
      if |openLiterals| == 0 {
        literalExtracts := 0;
      }
      openLiterals := openLiterals + [key];
      literalExtracts := literalExtracts + 1;
    }

    /** Closes the innermost literal; the outermost takes the classes with it. */
    method CloseLiteral()
      requires Sane(Current()) && openLiterals != []
      modifies this
      ensures Sane(Current()) && Current() == Closed(old(Current()))
    {
      CloseIsSane(Current());
      hide Sane, Forest;
      openLiterals := openLiterals[..|openLiterals| - 1];
      if |openLiterals| == 0 {
        literalCycles := map[];
      }
    }
  }
}
