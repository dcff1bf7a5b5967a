/**
 Two views of what a name means inside a function body: the chain of blocks in
 effect where it stands, and an index of the spans each declaration covers.
 */
module Scopes {
  import opened Wrappers

  /** What one block declares: the position each name enters scope at. */
  type Scope = map<string, nat>

  /**
   An identifier, or a block with what it declares itself.  signature: the
   names of the function whose body the block is, which the body's own
   declarations assign rather than declare.
   */
  datatype Node =
    | Ident(pos: nat)
    | Block(pos: nat, end: nat, scope: Scope, signature: set<string>, children: Nodes)

  datatype Nodes = Nil | Cons(head: Node, tail: Nodes)

  // ----- the chain

  /** The innermost declaration of name already in scope at at. */
  function Resolve(chain: seq<Scope>, name: string, at: nat): (r: Option<nat>)
    ensures r.Some? ==> exists i ::
              && 0 <= i < |chain| && name in chain[i] && chain[i][name] == r.value <= at
              && (forall j | i < j < |chain| && name in chain[j] :: at < chain[j][name])
    ensures r.None? ==> forall i | 0 <= i < |chain| && name in chain[i] :: at < chain[i][name]
    decreases |chain|
  {
    if chain == [] then None
    else
      var last := |chain| - 1;
      if name in chain[last] && chain[last][name] <= at then Some(chain[last][name])
      else Resolve(chain[..last], name, at)
  }

  /** A function body's scope, less what its signature declares. */
  function OwnScope(n: Node): Scope
    requires n.Block?
  {
    map k | k in n.scope && k !in n.signature :: n.scope[k]
  }

  /** An empty scope is not pushed. */
  function Push(chain: seq<Scope>, scope: Scope): seq<Scope> {
    if scope == map[] then chain else chain + [scope]
  }

  /** Where an identifier stands, and the chain in effect there. */
  datatype Use = Use(pos: nat, chain: seq<Scope>)

  function Uses(n: Node, chain: seq<Scope>): set<Use>
    decreases n
  {
    match n
    case Ident(pos) => {Use(pos, chain)}
    case Block(_, _, _, _, children) => UsesIn(children, Push(chain, OwnScope(n)))
  }

  function UsesIn(ns: Nodes, chain: seq<Scope>): set<Use>
    decreases ns
  {
    match ns
    case Nil => {}
    case Cons(head, tail) => Uses(head, chain) + UsesIn(tail, chain)
  }

  // ----- the index

  /** A declaration shadows its name from where it enters scope to the end of its block. */
  datatype Span = Span(name: string, from: nat, to: nat)

  function SpansOf(scope: Scope, to: nat): set<Span> {
    set k | k in scope :: Span(k, scope[k], to)
  }

  function Spans(n: Node): set<Span>
    decreases n
  {
    match n
    case Ident(_) => {}
    case Block(_, end, scope, _, children) => SpansOf(scope, end) + SpansIn(children)
  }

  function SpansIn(ns: Nodes): set<Span>
    decreases ns
  {
    match ns
    case Nil => {}
    case Cons(head, tail) => Spans(head) + SpansIn(tail)
  }

  predicate Shadows(index: set<Span>, name: string, at: nat) {
    exists s <- index :: s.name == name && s.from <= at <= s.to
  }

  // ----- source order

  function Start(n: Node): nat {
    n.pos
  }

  function End(n: Node): nat {
    if n.Ident? then n.pos else n.end
  }

  /** A body's signature names are in scope around it from its start on. */
  predicate Covered(signature: set<string>, chain: seq<Scope>, pos: nat) {
    forall k <- signature :: exists i :: 0 <= i < |chain| && k in chain[i] && chain[i][k] <= pos
  }

  /** Nodes follow one another, each inside its block, and declare within it. */
  predicate WellPlaced(n: Node, chain: seq<Scope>)
    decreases n, 1
  {
    n.Block? ==>
      && n.pos <= n.end
      && (forall k <- n.scope :: n.pos <= n.scope[k])
      && Covered(n.signature, chain, n.pos)
      && WellPlacedIn(n.children, n.pos, n.end, Push(chain, OwnScope(n)))
  }

  predicate WellPlacedIn(ns: Nodes, lo: nat, hi: nat, chain: seq<Scope>)
    decreases ns, 0
  {
    ns.Cons? ==>
      && lo <= Start(ns.head) <= End(ns.head) <= hi
      && WellPlaced(ns.head, chain)
      && (ns.tail.Cons? ==> End(ns.head) < Start(ns.tail.head))
      && WellPlacedIn(ns.tail, End(ns.head), hi, chain)
  }

  // ----- the two agree

  lemma {:induction false} UsesInside(n: Node, chain: seq<Scope>)
    requires WellPlaced(n, chain)
    ensures forall u <- Uses(n, chain) :: Start(n) <= u.pos <= End(n)
    decreases n, 1
  {
    if n.Block? {
      UsesInsideAll(n.children, n.pos, n.end, Push(chain, OwnScope(n)));
    }
  }

  lemma {:induction false} UsesInsideAll(ns: Nodes, lo: nat, hi: nat, chain: seq<Scope>)
    requires WellPlacedIn(ns, lo, hi, chain)
    ensures forall u <- UsesIn(ns, chain) :: ns.Cons? && Start(ns.head) <= u.pos <= hi
    decreases ns, 0
  {
    if ns.Cons? {
      UsesInside(ns.head, chain);
      UsesInsideAll(ns.tail, End(ns.head), hi, chain);
    }
  }

  lemma {:induction false} SpansInside(n: Node, chain: seq<Scope>)
    requires WellPlaced(n, chain)
    ensures forall s <- Spans(n) :: Start(n) <= s.from && s.to <= End(n)
    decreases n, 1
  {
    if n.Block? {
      SpansInsideAll(n.children, n.pos, n.end, Push(chain, OwnScope(n)));
    }
  }

  lemma {:induction false} SpansInsideAll(ns: Nodes, lo: nat, hi: nat, chain: seq<Scope>)
    requires WellPlacedIn(ns, lo, hi, chain)
    ensures forall s <- SpansIn(ns) :: ns.Cons? && Start(ns.head) <= s.from && s.to <= hi
    decreases ns, 0
  {
    if ns.Cons? {
      SpansInside(ns.head, chain);
      SpansInsideAll(ns.tail, End(ns.head), hi, chain);
    }
  }

  /** The chain declares name somewhere at or before at. */
  predicate Visible(chain: seq<Scope>, name: string, at: nat) {
    exists i :: 0 <= i < |chain| && name in chain[i] && chain[i][name] <= at
  }

  lemma ResolveIsVisible(chain: seq<Scope>, name: string, at: nat)
    ensures Resolve(chain, name, at).Some? <==> Visible(chain, name, at)
  {
  }

  lemma PushVisible(chain: seq<Scope>, scope: Scope, name: string, at: nat)
    ensures Visible(Push(chain, scope), name, at) <==> Visible(chain, name, at) || (name in scope && scope[name] <= at)
  {
    var more := Push(chain, scope);
    if scope != map[] {
      assert more[|chain|] == scope;
      if Visible(chain, name, at) {
        var i :| 0 <= i < |chain| && name in chain[i] && chain[i][name] <= at;
        assert more[i] == chain[i];
      }
    }
  }

  /** At every identifier: a name the chain resolves is one the index, or the chain around n, shadows. */
  lemma {:induction false} ViewsAgreeAt(n: Node, chain: seq<Scope>, u: Use, name: string)
    requires WellPlaced(n, chain) && u in Uses(n, chain)
    ensures Visible(u.chain, name, u.pos) <==> Visible(chain, name, u.pos) || Shadows(Spans(n), name, u.pos)
    decreases n, 1
  {
    if n.Block? {
      var inner, own := Push(chain, OwnScope(n)), OwnScope(n);
      UsesInside(n, chain);
      ViewsAgreeAll(n.children, n.pos, n.end, inner, u, name);
      PushVisible(chain, own, name, u.pos);
      if name in n.scope && n.scope[name] <= u.pos {
        assert Span(name, n.scope[name], n.end) in SpansOf(n.scope, n.end);
        assert Shadows(Spans(n), name, u.pos);
        if name in n.signature {
          var i :| 0 <= i < |chain| && name in chain[i] && chain[i][name] <= n.pos;
          assert Visible(chain, name, u.pos);
        }
      }
      if Shadows(Spans(n), name, u.pos) {
        var s :| s in Spans(n) && s.name == name && s.from <= u.pos <= s.to;
        assert s in SpansIn(n.children) || (name in n.scope && n.scope[name] <= u.pos);
      }
    }
  }

  lemma {:induction false} ViewsAgreeAll(ns: Nodes, lo: nat, hi: nat, chain: seq<Scope>, u: Use, name: string)
    requires WellPlacedIn(ns, lo, hi, chain) && u in UsesIn(ns, chain)
    ensures Visible(u.chain, name, u.pos) <==> Visible(chain, name, u.pos) || Shadows(SpansIn(ns), name, u.pos)
    decreases ns, 0
  {
    var head, tail := ns.head, ns.tail;
    SpansInside(head, chain);
    SpansInsideAll(tail, End(head), hi, chain);
    if u in Uses(head, chain) {
      UsesInside(head, chain);
      ViewsAgreeAt(head, chain, u, name);
      assert forall s <- SpansIn(tail) :: u.pos < s.from;
    } else {
      UsesInsideAll(tail, End(head), hi, chain);
      ViewsAgreeAll(tail, End(head), hi, chain, u, name);
      assert forall s <- Spans(head) :: s.to < u.pos;
    }
    assert Shadows(SpansIn(ns), name, u.pos) <==> Shadows(Spans(head), name, u.pos) || Shadows(SpansIn(tail), name, u.pos);
  }

  predicate Stands(n: Node, pos: nat)
    decreases n
  {
    match n
    case Ident(at) => at == pos
    case Block(_, _, _, _, children) => StandsIn(children, pos)
  }

  predicate StandsIn(ns: Nodes, pos: nat)
    decreases ns
  {
    ns.Cons? && (Stands(ns.head, pos) || StandsIn(ns.tail, pos))
  }

  /** Every identifier has a chain in effect. */
  lemma {:induction false} EveryIdentifierIsSeen(n: Node, chain: seq<Scope>, pos: nat)
    ensures Stands(n, pos) <==> exists u <- Uses(n, chain) :: u.pos == pos
    decreases n
  {
    if n.Block? {
      EveryIdentifierInIsSeen(n.children, Push(chain, OwnScope(n)), pos);
    } else {
      assert Use(n.pos, chain) in Uses(n, chain);
    }
  }

  lemma {:induction false} EveryIdentifierInIsSeen(ns: Nodes, chain: seq<Scope>, pos: nat)
    ensures StandsIn(ns, pos) <==> exists u <- UsesIn(ns, chain) :: u.pos == pos
    decreases ns
  {
    if ns.Cons? {
      EveryIdentifierIsSeen(ns.head, chain, pos);
      EveryIdentifierInIsSeen(ns.tail, chain, pos);
    }
  }

  /** The index of a function: its signature over the whole body, and every block inside it. */
  function Index(signature: Scope, body: Node): set<Span>
    requires body.Block?
  {
    SpansOf(signature, body.end) + Spans(body)
  }

  /**
   At every identifier of a function's body, the index says a name is shadowed
   if and only if the chain there resolves it.
   */
  lemma IndexAgreesWithChain(signature: Scope, body: Node, u: Use, name: string)
    requires body.Block? && body.signature == signature.Keys && (forall k <- signature :: signature[k] == body.pos)
    requires WellPlaced(body, Push([], signature)) && u in Uses(body, Push([], signature))
    ensures Shadows(Index(signature, body), name, u.pos) <==> Resolve(u.chain, name, u.pos).Some?
  {
    var outer := Push([], signature);
    UsesInside(body, outer);
    ViewsAgreeAt(body, outer, u, name);
    PushVisible([], signature, name, u.pos);
    ResolveIsVisible(u.chain, name, u.pos);
    var index := Index(signature, body);
    if name in signature {
      assert Span(name, signature[name], body.end) in SpansOf(signature, body.end);
    }
    if Shadows(index, name, u.pos) {
      var s :| s in index && s.name == name && s.from <= u.pos <= s.to;
      assert s in Spans(body) || name in signature;
    }
    if Shadows(Spans(body), name, u.pos) {
      var s :| s in Spans(body) && s.name == name && s.from <= u.pos <= s.to;
      assert s in index;
    }
  }
}
