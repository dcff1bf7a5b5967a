/**
 The part of a Go function body the registrar walk looks at, with source
 positions.  Every identifier is already resolved to the declaration it refers
 to: a Key is a name plus the position that declaration enters scope.
 */
module RegistrarSyntax {
  import opened Wrappers

  type Pos = nat

  /** One declaration of a name. */
  datatype Key = Key(name: string, from: Pos)

  /** What an assigned expression is, as far as registrars go. */
  datatype Rhs =
    | Group(parent: Key, arg: Option<string>) // parent.Group(arg); None: the argument is no constant string
    | Copy(source: Key)                       // another variable
    | Opaque                                  // anything else

  datatype Target = Target(key: Key, rhs: Rhs)

  /** The scope-introducing nodes, plus select, which gets a frame too. */
  datatype Kind =
    | RootK                 // the function signature
    | BlockK
    | IfK                   // header; then-block, optionally followed by else
    | SwitchK               // header; its body of clauses
    | SelectK
    | CasesK                // the block that holds a switch's or select's clauses
    | ClauseK(falls: bool)  // falls: the clause ends in fallthrough
    | ForK(bodyStart: Pos)
    | RangeK
    | LitK                  // a function literal

  /**
   A Call is any call; registrar is the variable a route is registered on, if
   it registers one.  An Assign is an assignment, a short variable declaration
   or one spec of a var declaration: it declares `decls` (in scope from `end`)
   and writes `targets`, all values read before any write.  inner holds the
   calls and function literals of its expressions, in source order.
   */
  datatype Node =
    | Call(pos: Pos, end: Pos, registrar: Option<Key>, inner: Nodes)
    | Assign(pos: Pos, end: Pos, decls: seq<Key>, targets: seq<Target>, inner: Nodes)
    | Scope(kind: Kind, pos: Pos, end: Pos, declares: seq<Key>, header: Nodes, body: Nodes)

  datatype Nodes = Nil | Cons(head: Node, tail: Nodes)

  /** Where one variable is written, and whether its value may be one the analysis can trace. */
  datatype Site = Site(key: Key, at: Pos, traceable: bool)

  function TargetKeys(ts: seq<Target>): set<Key> {
    set t | t in ts :: t.key
  }

  function ReadsOf(rhs: Rhs): set<Key> {
    match rhs
    case Group(parent, _) => {parent}
    case Copy(source) => {source}
    case Opaque => {}
  }

  function TargetReads(ts: seq<Target>): set<Key> {
    set t, k | t in ts && k in ReadsOf(t.rhs) :: k
  }

  function KeySet(keys: seq<Key>): set<Key> {
    set k | k in keys
  }

  // ----- what a piece of code writes

  /** The variables a node writes, function literals included. */
  function Writes(n: Node): set<Key>
    decreases n, 1
  {
    match n
    case Call(_, _, _, inner) => WritesIn(inner)
    case Assign(_, _, _, targets, inner) => TargetKeys(targets) + WritesIn(inner)
    case Scope(_, _, _, _, header, body) => WritesIn(header) + WritesIn(body)
  }

  function WritesIn(ns: Nodes): set<Key>
    decreases ns, 0
  {
    match ns
    case Nil => {}
    case Cons(head, tail) => Writes(head) + WritesIn(tail)
  }

  /** The variables written inside function literals of a node. */
  function LitWrites(n: Node): set<Key>
    decreases n, 1
  {
    match n
    case Call(_, _, _, inner) => LitWritesIn(inner)
    case Assign(_, _, _, _, inner) => LitWritesIn(inner)
    case Scope(kind, _, _, _, header, body) =>
      if kind.LitK? then Writes(n) else LitWritesIn(header) + LitWritesIn(body)
  }

  function LitWritesIn(ns: Nodes): set<Key>
    decreases ns, 0
  {
    match ns
    case Nil => {}
    case Cons(head, tail) => LitWrites(head) + LitWritesIn(tail)
  }

  /** Every write with the position it takes effect at: the end of its statement. */
  function Sites(n: Node): set<Site>
    decreases n, 1
  {
    match n
    case Call(_, _, _, inner) => SitesIn(inner)
    case Assign(_, end, _, targets, inner) => (set t | t in targets :: Site(t.key, end, !t.rhs.Opaque?)) + SitesIn(inner)
    case Scope(_, _, _, _, header, body) => SitesIn(header) + SitesIn(body)
  }

  function SitesIn(ns: Nodes): set<Site>
    decreases ns, 0
  {
    match ns
    case Nil => {}
    case Cons(head, tail) => Sites(head) + SitesIn(tail)
  }

  /** What a node adds to the scope of the nodes after it. */
  function Declared(n: Node): set<Key> {
    if n.Assign? then KeySet(n.decls) else {}
  }

  function DeclaredIn(ns: Nodes): set<Key> {
    match ns
    case Nil => {}
    case Cons(head, tail) => Declared(head) + DeclaredIn(tail)
  }

  // ----- the shape Go's grammar gives

  predicate IsBranching(kind: Kind) {
    kind.IfK? || kind.CasesK?
  }

  predicate IsLoop(kind: Kind) {
    kind.ForK? || kind.RangeK?
  }

  predicate IsStatementScope(kind: Kind) {
    kind.BlockK? || kind.IfK? || kind.SwitchK? || kind.SelectK? || IsLoop(kind)
  }

  /** Calls and function literals: what an expression can hold. */
  predicate AreExpressions(ns: Nodes) {
    ns.Cons? ==> (ns.head.Call? || (ns.head.Scope? && ns.head.kind.LitK?)) && AreExpressions(ns.tail)
  }

  /** Function literals alone: evaluating such expressions runs nothing. */
  predicate AreLiterals(ns: Nodes) {
    ns.Cons? ==> ns.head.Scope? && ns.head.kind.LitK? && AreLiterals(ns.tail)
  }

  /** Calls and assignments: what a statement header can hold. */
  predicate AreSimple(ns: Nodes) {
    ns.Cons? ==> !ns.head.Scope? && AreSimple(ns.tail)
  }

  predicate AreStatements(ns: Nodes) {
    ns.Cons? ==> (ns.head.Scope? ==> IsStatementScope(ns.head.kind)) && AreStatements(ns.tail)
  }

  predicate AreClauses(ns: Nodes) {
    ns.Cons? ==> ns.head.Scope? && ns.head.kind.ClauseK? && AreClauses(ns.tail)
  }

  predicate IsSole(ns: Nodes, kind: Kind) {
    ns.Cons? && ns.head.Scope? && ns.head.kind == kind && ns.tail.Nil?
  }

  /** A then-block, alone or before an else block or an else-if. */
  predicate AreAlternatives(ns: Nodes) {
    && ns.Cons? && ns.head.Scope? && ns.head.kind == BlockK
    && (ns.tail.Cons? ==>
          && ns.tail.head.Scope? && (ns.tail.head.kind == BlockK || ns.tail.head.kind == IfK)
          && ns.tail.tail.Nil?)
  }

  /** The condition and post statement of a three-clause loop, or what a range clause assigns to each time, then the block. */
  predicate AreLoopParts(ns: Nodes) {
    && ns.Cons?
    && if ns.tail.Nil? then IsSole(ns, BlockK) else !ns.head.Scope? && Declared(ns.head) == {} && AreLoopParts(ns.tail)
  }

  predicate WellShaped(n: Node) {
    match n
    case Call(_, _, _, inner) => AreExpressions(inner)
    case Assign(_, _, _, _, inner) => AreExpressions(inner)
    case Scope(kind, _, _, _, header, body) =>
      match kind
      case RootK => false
      case BlockK => header.Nil? && AreStatements(body)
      case ClauseK(_) => header.Nil? && AreStatements(body)
      case IfK => AreSimple(header) && AreAlternatives(body)
      case SwitchK => AreSimple(header) && IsSole(body, CasesK)
      case SelectK => header.Nil? && IsSole(body, CasesK)
      case CasesK => header.Nil? && AreClauses(body)
      case ForK(_) => AreSimple(header) && AreLoopParts(body)
      case RangeK => AreExpressions(header) && AreLoopParts(body) && (IsSole(body, BlockK) || n.declares == [])
      case LitK => header.Nil? && IsSole(body, BlockK)
  }

  /** From where on code may run again: a three-clause loop's init runs once. */
  function RunStart(kind: Kind, pos: Pos): Pos {
    if kind.ForK? then kind.bodyStart else pos
  }

  predicate IsRepeatable(kind: Kind) {
    IsLoop(kind) || kind.LitK?
  }

  /** The variables a node's own frame declares, by kind. */
  predicate DeclaresWhatItShould(n: Node)
    requires n.Scope?
  {
    match n.kind
    case RangeK => true
    case LitK => true
    case BlockK => KeySet(n.declares) == DeclaredIn(n.body)
    case ClauseK(_) => KeySet(n.declares) == DeclaredIn(n.body)
    case _ => KeySet(n.declares) == DeclaredIn(n.header)
  }

  /** Where the last of ns ends, lo when there is none. */
  function After(ns: Nodes, lo: Pos): Pos {
    match ns
    case Nil => lo
    case Cons(head, tail) => After(tail, head.end)
  }

  /** The variables in scope at the start of a scope's body. */
  function InnerScope(n: Node, avail: set<Key>): set<Key>
    requires n.Scope?
  {
    avail + (if n.kind.RangeK? || n.kind.LitK? then KeySet(n.declares) else DeclaredIn(n.header))
  }

  /**
   n is well formed where the variables in scope are avail: names are used in
   scope and declared once, positions follow the source, and what an
   expression reads is not written by a function literal that a call of the
   same statement may run (Go leaves the order of the two unspecified).
   */
  predicate WellFormed(n: Node, avail: set<Key>)
    decreases n, 1
  {
    && n.pos < n.end
    && WellShaped(n)
    && (forall k <- avail :: k.from <= n.pos)
    && match n
       case Call(pos, end, registrar, inner) =>
         && (registrar.Some? ==> registrar.value in avail && (AreLiterals(inner) || registrar.value !in WritesIn(inner)))
         && WellFormedIn(inner, if registrar.Some? then pos + 1 else pos, end, avail)
       case Assign(pos, end, decls, targets, inner) =>
         && (forall k <- decls :: k.from == end)
         && TargetKeys(targets) <= avail + KeySet(decls)
         && (forall i, j | 0 <= i < j < |targets| :: targets[i].key != targets[j].key)
         && TargetReads(targets) <= avail
         && (AreLiterals(inner) || TargetReads(targets) !! WritesIn(inner))
         && WellFormedIn(inner, pos, end, avail)
       case Scope(kind, pos, end, declares, header, body) =>
         && DeclaresWhatItShould(n)
         && (IsRepeatable(kind) ==> forall k <- avail :: k.from < pos)
         && (IsLoop(kind) ==> forall s <- Sites(n) :: s.at < end)
         && (kind.ForK? ==> pos < kind.bodyStart && forall k <- declares :: k.from < kind.bodyStart)
         && (forall k <- declares :: pos < k.from)
         && (kind.RangeK? || kind.LitK? ==> body.Cons? && forall k <- declares :: k.from <= body.head.pos)
         && WellFormedIn(header, pos, end, avail)
         && WellFormedIn(body, After(header, pos), end, InnerScope(n, avail))
  }

  /** ns is well formed, in order, between lo and hi. */
  predicate WellFormedIn(ns: Nodes, lo: Pos, hi: Pos, avail: set<Key>)
    decreases ns, 0
  {
    match ns
    case Nil => lo <= hi
    case Cons(head, tail) =>
      && lo <= head.pos
      && head.end <= hi
      && WellFormed(head, avail)
      && WellFormedIn(tail, head.end, hi, avail + Declared(head))
  }
}
