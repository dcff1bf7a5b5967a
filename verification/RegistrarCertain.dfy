/**
 Where a registration is certain to be resolved, read off the syntax alone: a
 second analysis, over sets of variables, that knows nothing of frames, values
 or waiting writes.
 */
module RegistrarCertain {
  import opened Wrappers
  import opened RegistrarSyntax
  import opened RegistrarTracker
  import opened RegistrarStructure
  import opened RegistrarInvariants
  import opened RegistrarWorld
  import opened RegistrarClaims
  import opened RegistrarAssign
  import opened RegistrarReady
  import opened RegistrarScopes
  import opened RegistrarTheorem
  import opened RegistrarTrust
  import opened RegistrarSemantics
  import opened RegistrarSoundness
  import opened RegistrarRuns
  import opened RegistrarNotes

  /** bound: variables whose prefix is known; lost: those a function literal has reassigned by now. */
  datatype Sure = Sure(bound: set<Key>, lost: set<Key>)

  /** What is certain after some code, and the registrations in it that are. */
  datatype Certain = Certain(after: Sure, spots: set<Pos>)

  /** A group of a known registrar under a constant, or a copy of one. */
  predicate Follows(rhs: Rhs, bound: set<Key>) {
    (rhs.Copy? || (rhs.Group? && rhs.arg.Some?)) && ReadsOf(rhs) <= bound
  }

  /**
   The variables that outlive one run of n while another may write them: in a
   loop, those it writes itself, but for their declaration; in a function
   literal, which may run at any time from its creation on, all written later.
   */
  function Unsettled(ws: set<Site>, n: Node): set<Key>
    requires n.Scope?
  {
    if n.kind.LitK? then set s | s in ws && n.pos <= s.at && s.key.from < n.pos :: s.key
    else if IsLoop(n.kind) then
      set s | s in ws && (s in Sites(n) || s.at == n.pos) && s.key.from < s.at && s.key.from < RunStart(n.kind, n.pos) :: s.key
    else {}
  }

  function TargetsFollowing(ts: seq<Target>, bound: set<Key>): set<Key> {
    set t | t in ts && Follows(t.rhs, bound) :: t.key
  }

  /** What the next clause must doubt after n. */
  function FellOn(n: Node, fell: set<Key>): set<Key> {
    if n.Scope? && n.kind.ClauseK? && n.kind.falls then fell + Writes(n) else {}
  }

  /** The variables declared before n. */
  function Outer(keys: set<Key>, n: Node): set<Key> {
    set k | k in keys && k.from <= n.pos
  }

  /**
   After scope n, standing in one of kind outer: a bare block always ran, an
   alternative leaves its siblings what was there before it, and anything else
   is doubted where it writes, but for an if or switch header, which always runs.
   */
  function BoundAfter(n: Node, outer: Kind, before: Sure, header: Sure, body: Sure, lost: set<Key>): set<Key>
    requires n.Scope?
  {
    if n.kind.BlockK? && (outer.BlockK? || outer.ClauseK?) then Outer(body.bound, n)
    else if n.kind.ClauseK? || (n.kind.BlockK? && outer.IfK?) then before.bound - lost
    else if IsHeader(n.kind) && !outer.IfK? then Outer(header.bound, n) - WritesIn(n.body) - lost
    else before.bound - Writes(n) - lost
  }

  /** barred: variables not settled in some scope around; fell: those a clause just before n wrote and fell through. */
  function Judge(ws: set<Site>, n: Node, outer: Kind, barred: set<Key>, fell: set<Key>, s: Sure): Certain
    decreases n, 1
  {
    match n
    case Call(pos, _, registrar, inner) =>
      var c := JudgeIn(ws, inner, outer, barred, {}, s);
      Certain(c.after, c.spots + if registrar.Some? && registrar.value in s.bound then {pos} else {})
    case Assign(_, _, _, targets, inner) =>
      var c := JudgeIn(ws, inner, outer, barred, {}, s);
      Certain(Sure(c.after.bound - TargetKeys(targets) + (TargetsFollowing(targets, s.bound) - barred - c.after.lost), c.after.lost), c.spots)
    case Scope(kind, _, _, _, header, body) =>
      var stops := Unsettled(ws, n);
      var h := JudgeIn(ws, header, kind, barred + stops, {}, Sure(s.bound - fell - stops, s.lost));
      var b := JudgeIn(ws, body, kind, barred + stops, {}, h.after);
      var lost := b.after.lost + if kind.LitK? then Writes(n) else {};
      Certain(Sure(BoundAfter(n, outer, s, h.after, b.after, lost), lost), h.spots + b.spots)
  }

  function JudgeIn(ws: set<Site>, ns: Nodes, outer: Kind, barred: set<Key>, fell: set<Key>, s: Sure): Certain
    decreases ns, 0
  {
    match ns
    case Nil => Certain(s, {})
    case Cons(head, tail) =>
      var c := Judge(ws, head, outer, barred, fell, s);
      var d := JudgeIn(ws, tail, outer, barred, FellOn(head, fell), c.after);
      Certain(d.after, c.spots + d.spots)
  }

  // ----- where a write takes effect

  lemma {:induction false} SitesInside(n: Node, avail: set<Key>)
    requires WellFormed(n, avail)
    ensures forall s <- Sites(n) :: n.pos < s.at <= n.end
    decreases n, 1
  {
    match n
    case Call(pos, end, registrar, inner) => SitesInsideIn(inner, if registrar.Some? then pos + 1 else pos, end, avail);
    case Assign(pos, end, _, _, inner) => SitesInsideIn(inner, pos, end, avail);
    case Scope(_, pos, end, _, header, body) =>
      AfterIsAhead(header, pos, end, avail);
      SitesInsideIn(header, pos, end, avail);
      SitesInsideIn(body, After(header, pos), end, InnerScope(n, avail));
  }

  lemma {:induction false} SitesInsideIn(ns: Nodes, lo: Pos, hi: Pos, avail: set<Key>)
    requires WellFormedIn(ns, lo, hi, avail)
    ensures After(ns, lo) <= hi && forall s <- SitesIn(ns) :: lo < s.at <= After(ns, lo)
    decreases ns, 0
  {
    AfterIsAhead(ns, lo, hi, avail);
    if ns.Cons? {
      SitesInside(ns.head, avail);
      AfterIsAhead(ns.tail, ns.head.end, hi, avail + Declared(ns.head));
      SitesInsideIn(ns.tail, ns.head.end, hi, avail + Declared(ns.head));
    }
  }

  /** Whatever takes effect while n runs through, n writes. */
  predicate Alone(ws: set<Site>, n: Node) {
    forall s <- ws :: s in Sites(n) || s.at <= n.pos || n.end <= s.at
  }

  predicate AloneIn(ws: set<Site>, ns: Nodes, lo: Pos) {
    forall s <- ws :: s in SitesIn(ns) || s.at <= lo || After(ns, lo) <= s.at
  }

  lemma PartsAlone(ws: set<Site>, n: Node, avail: set<Key>)
    requires WellFormed(n, avail) && Alone(ws, n)
    ensures n.Scope? ==> AloneIn(ws, n.header, n.pos) && AloneIn(ws, n.body, After(n.header, n.pos))
    ensures !n.Scope? ==> AloneIn(ws, n.inner, InnerStart(n))
  {
    if n.Scope? {
      var lo := After(n.header, n.pos);
      AfterIsAhead(n.header, n.pos, n.end, avail);
      SitesInsideIn(n.header, n.pos, n.end, avail);
      SitesInsideIn(n.body, lo, n.end, InnerScope(n, avail));
      AfterIsAhead(n.body, lo, n.end, InnerScope(n, avail));
      assert Sites(n) == SitesIn(n.header) + SitesIn(n.body);
    } else {
      SitesInsideIn(n.inner, InnerStart(n), n.end, avail);
      if n.Assign? {
        var own := set t | t in n.targets :: Site(t.key, n.end, !t.rhs.Opaque?);
        assert Sites(n) == own + SitesIn(n.inner) && forall s <- own :: s.at == n.end;
      }
    }
  }

  lemma ListAlone(ws: set<Site>, ns: Nodes, lo: Pos, hi: Pos, avail: set<Key>)
    requires ns.Cons? && WellFormedIn(ns, lo, hi, avail) && AloneIn(ws, ns, lo)
    ensures Alone(ws, ns.head) && AloneIn(ws, ns.tail, ns.head.end)
  {
    SitesInside(ns.head, avail);
    SitesInsideIn(ns.tail, ns.head.end, hi, avail + Declared(ns.head));
    AfterIsAhead(ns.tail, ns.head.end, hi, avail + Declared(ns.head));
    assert SitesIn(ns) == Sites(ns.head) + SitesIn(ns.tail);
  }

  // ----- what the open scopes bar

  /** Variables not declared inside an open loop or literal outlive it, and sites lie inside. */
  predicate Rooted(s: Stack, keys: set<Key>, sites: set<Site>) {
    match s
    case Bottom(f) => f.kind.RootK?
    case Push(f, parent) =>
      && !f.kind.RootK?
      && (f.kind.ForK? ==> f.pos < f.kind.bodyStart && forall k <- f.declares :: k.from < f.kind.bodyStart)
      && (IsRepeatable(f.kind) ==>
            && (forall k <- keys :: k in f.declares || k.from < f.pos)
            && (forall x <- sites :: f.pos <= x.at && (IsLoop(f.kind) ==> x.at < f.end)))
      && Rooted(parent, keys - KeySet(f.declares), sites)
  }

  lemma {:induction false} RootedLess(s: Stack, keys: set<Key>, less: set<Key>, sites: set<Site>, fewer: set<Site>)
    requires Rooted(s, keys, sites) && fewer <= sites && forall k <- less :: k in keys || Declares(s.frame, k)
    ensures Rooted(s, less, fewer)
    decreases s
  {
    if s.Push? {
      assert forall k <- less - KeySet(s.frame.declares) :: k in keys - KeySet(s.frame.declares);
      RootedLess(s.parent, keys - KeySet(s.frame.declares), less - KeySet(s.frame.declares), sites, fewer);
    }
  }

  lemma {:induction false} RootedByOutline(s: Stack, r: Stack, keys: set<Key>, sites: set<Site>)
    requires Rooted(s, keys, sites) && Outline(s) == Outline(r)
    ensures Rooted(r, keys, sites)
    decreases s
  {
    assert Blank(s.frame) == Blank(r.frame);
    if s.Push? {
      RootedByOutline(s.parent, r.parent, keys - KeySet(s.frame.declares), sites);
    }
  }

  lemma EnterRooted(t: Tracker, n: Node, avail: set<Key>)
    requires n.Scope? && WellFormed(n, avail) && Rooted(t.top, avail, Sites(n))
    ensures Rooted(Enter(t, n).top, avail + KeySet(n.declares), Sites(n))
  {
    SitesInside(n, avail);
    var e := Enter(t, n);
    RootedByOutline(t.top, e.top.parent, avail, Sites(n));
    assert forall k <- avail + KeySet(n.declares) :: k in avail || k in n.declares;
    RootedLess(e.top.parent, avail, avail + KeySet(n.declares) - KeySet(n.declares), Sites(n), Sites(n));
  }

  /** A write that another run may see is one of a variable that is never resolved there. */
  lemma {:induction false} CarriedIsKilled(ws: set<Site>, s: Stack, keys: set<Key>, sites: set<Site>, x: Site, pos: Pos)
    requires Rooted(s, keys, sites) && x in sites && x in ws && x.key in keys && x.key.from <= pos < x.at
    requires CarriedAcrossRuns(s, x.key, pos)
    ensures KilledWithin(ws, s, x.key)
    decreases s
  {
    if !ReassignedWhileRunning(ws, s.frame, x.key) {
      CarriedIsKilled(ws, s.parent, keys - KeySet(s.frame.declares), sites, x, pos);
    }
  }

  ghost predicate Bars(ws: set<Site>, s: Stack, barred: set<Key>) {
    forall k :: KilledWithin(ws, s, k) ==> k in barred
  }

  lemma BarsByOutline(ws: set<Site>, s: Stack, r: Stack, barred: set<Key>)
    requires Bars(ws, s, barred) && Outline(s) == Outline(r)
    ensures Bars(ws, r, barred)
  {
    forall k | KilledWithin(ws, r, k) ensures k in barred {
      KilledByOutline(ws, s, r, k);
    }
  }

  /** Every run of n sees the variables that are settled in it alike. */
  lemma SettledRuns(ws: set<Site>, n: Node, k: Key)
    requires n.Scope? && Alone(ws, n) && ReassignedWhileRunning(ws, NewFrame(n, map[]), k)
    ensures k in Unsettled(ws, n)
  {
    var s :| s in ws && s.key == k && n.pos <= s.at && k.from < s.at && (n.kind.LitK? || s.at < n.end);
  }

  lemma EnterBars(ws: set<Site>, t: Tracker, n: Node, barred: set<Key>)
    requires n.Scope? && Alone(ws, n) && Bars(ws, t.top, barred)
    ensures Bars(ws, Enter(t, n).top, barred + Unsettled(ws, n))
  {
    var e := Enter(t, n);
    forall k | KilledWithin(ws, e.top, k) ensures k in barred + Unsettled(ws, n) {
      if ReassignedWhileRunning(ws, e.top.frame, k) {
        assert ReassignedWhileRunning(ws, NewFrame(n, map[]), k);
        SettledRuns(ws, n, k);
      } else {
        KilledByOutline(ws, t.top, e.top.parent, k);
      }
    }
  }

  // ----- what the walk knows

  /** What s says of t is true. */
  predicate Vouches(ws: set<Site>, t: Tracker, avail: set<Key>, s: Sure) {
    s.bound <= avail && t.captured <= s.lost && forall k <- s.bound :: Claims(ws, t, k)
  }

  /** What a header has written so far lies outside, but for what literals in it captured. */
  predicate HeaderOpen(t: Tracker) {
    IsHeader(t.top.frame.kind) ==>
      t.top.Push? && forall k <- WrittenKeys(t.top.frame) :: Declares(t.top.frame, k) || k in t.captured
  }

  predicate ResolvedAt(log: seq<Entry>, spots: set<Pos>) {
    forall e <- log :: e.Registration? && e.pos in spots ==> IsResolved(e.prefix)
  }

  /** Code up to mid, then code from there on. */
  lemma ResolvedThen(a: seq<Entry>, b: seq<Entry>, some: set<Pos>, more: set<Pos>, mid: Pos)
    requires ResolvedAt(a, some) && ResolvedAt(b, more)
    requires (forall e <- a :: e.Registration? ==> e.pos < mid) && (forall p <- some :: p < mid)
    requires (forall e <- b :: e.Registration? ==> mid <= e.pos) && (forall p <- more :: mid <= p)
    ensures ResolvedAt(a + b, some + more)
  {
  }

  /** Reports stand where their code does. */
  lemma LogInside(ws: set<Site>, ns: Nodes, t: Tracker, lo: Pos, hi: Pos, avail: set<Key>)
    requires WellFormedIn(ns, lo, hi, avail)
    ensures forall e <- WalkIn(ws, ns, t).log :: e.Registration? ==> lo <= e.pos < After(ns, lo)
  {
    WalkInOrdered(ws, ns, t, lo, hi, avail);
  }

  lemma {:induction false} SpotsInside(ws: set<Site>, n: Node, outer: Kind, barred: set<Key>, fell: set<Key>, s: Sure, avail: set<Key>)
    requires WellFormed(n, avail)
    ensures forall p <- Judge(ws, n, outer, barred, fell, s).spots :: n.pos <= p < n.end
    decreases n, 1
  {
    match n
    case Call(pos, end, registrar, inner) =>
      AfterIsAhead(inner, InnerStart(n), end, avail);
      SpotsInsideIn(ws, inner, outer, barred, {}, s, InnerStart(n), end, avail);
    case Assign(pos, end, _, _, inner) =>
      AfterIsAhead(inner, pos, end, avail);
      SpotsInsideIn(ws, inner, outer, barred, {}, s, pos, end, avail);
    case Scope(kind, pos, end, _, header, body) =>
      var stops := Unsettled(ws, n);
      var e := Sure(s.bound - fell - stops, s.lost);
      var h := JudgeIn(ws, header, kind, barred + stops, {}, e);
      AfterIsAhead(header, pos, end, avail);
      AfterIsAhead(body, After(header, pos), end, InnerScope(n, avail));
      SpotsInsideIn(ws, header, kind, barred + stops, {}, e, pos, end, avail);
      SpotsInsideIn(ws, body, kind, barred + stops, {}, h.after, After(header, pos), end, InnerScope(n, avail));
  }

  lemma {:induction false} SpotsInsideIn(ws: set<Site>, ns: Nodes, outer: Kind, barred: set<Key>, fell: set<Key>, s: Sure,
                                         lo: Pos, hi: Pos, avail: set<Key>)
    requires WellFormedIn(ns, lo, hi, avail)
    ensures forall p <- JudgeIn(ws, ns, outer, barred, fell, s).spots :: lo <= p < After(ns, lo)
    decreases ns, 0
  {
    if ns.Cons? {
      var c := Judge(ws, ns.head, outer, barred, fell, s);
      SpotsInside(ws, ns.head, outer, barred, fell, s, avail);
      SpotsInsideIn(ws, ns.tail, outer, barred, FellOn(ns.head, fell), c.after, ns.head.end, hi, avail + Declared(ns.head));
      AfterIsAhead(ns.tail, ns.head.end, hi, avail + Declared(ns.head));
    }
  }

  // ----- writing

  /** Recording one target changes no other binding, and leaves its own known where it follows known ones. */
  lemma TargetJudged(ws: set<Site>, before: Tracker, t: Tracker, n: Node, x: Target, avail: set<Key>, bound: set<Key>, barred: set<Key>)
    requires n.Assign? && n.pos < n.end && Sites(n) <= ws && x in n.targets && forall k <- n.decls :: k.from == n.end
    requires Sane(ws, t.top, avail) && x.key in avail && HeaderOpen(t) && Rooted(t.top, avail, Sites(n)) && Bars(ws, t.top, barred)
    requires if x.key in n.decls then Declares(t.top.frame, x.key) else x.key.from <= n.pos
    requires forall k <- bound :: Claims(ws, before, k)
    ensures var r := WriteTarget(ws, before, t, n.pos, x);
            && Sane(ws, r.top, avail) && HeaderOpen(r) && r.captured == t.captured && Grew(t, r, {x.key})
            && (Follows(x.rhs, bound) && x.key !in barred + t.captured ==> Claims(ws, r, x.key))
  {
    var r, v := WriteTarget(ws, before, t, n.pos, x), RhsBinding(ws, before, x.rhs).value;
    SetKeepsSane(ws, t.top, x.key, n.pos, v, avail);
    StackGrewReflexive(t.top, {x.key});
    if Follows(x.rhs, bound) && x.key !in barred + t.captured {
      var read := if x.rhs.Group? then x.rhs.parent else x.rhs.source;
      assert read in ReadsOf(x.rhs) && Claims(ws, before, read);
      NotCarried(ws, t, n, x, avail, barred);
      assert v.resolved && WrittenValue(t.top, x.key, n.pos, v) == v && r.top == SetIn(t.top, x.key, v);
      JustWritten(ws, t, x.key, v);
    }
  }

  lemma JustWritten(ws: set<Site>, t: Tracker, k: Key, v: Prefix)
    requires HeaderOpen(t) && k !in t.captured && !KilledWithin(ws, t.top, k)
    ensures Lookup(ws, t.(top := SetIn(t.top, k, v)), k) == Some(v)
  {
    if LandsOutside(t.top, k) {
      assert k !in t.top.frame.values && !ReassignedWhileRunning(ws, t.top.parent.frame, k);
      var parent := OnTop(t.top.parent, WithValue(t.top.parent.frame, k, v));
      assert LookupFrom(ws, parent, k, false) == Some(v);
    }
  }

  lemma NotCarried(ws: set<Site>, t: Tracker, n: Node, x: Target, avail: set<Key>, barred: set<Key>)
    requires n.Assign? && n.pos < n.end && Sites(n) <= ws && x in n.targets && forall k <- n.decls :: k.from == n.end
    requires x.key in avail && Rooted(t.top, avail, Sites(n)) && Bars(ws, t.top, barred) && x.key !in barred
    requires if x.key in n.decls then Declares(t.top.frame, x.key) else x.key.from <= n.pos
    ensures !CarriedAcrossRuns(if LandsOutside(t.top, x.key) then t.top.parent else t.top, x.key, n.pos)
  {
    var site := Site(x.key, n.end, !x.rhs.Opaque?);
    assert site in (set y | y in n.targets :: Site(y.key, n.end, !y.rhs.Opaque?));
    if x.key !in n.decls {
      var from := if LandsOutside(t.top, x.key) then t.top.parent else t.top;
      if CarriedAcrossRuns(t.top, x.key, n.pos) {
        CarriedIsKilled(ws, t.top, avail, Sites(n), site, n.pos);
      }
    }
  }

  lemma {:induction false} TargetsJudged(ws: set<Site>, before: Tracker, t: Tracker, n: Node, i: nat, avail: set<Key>, bound: set<Key>, barred: set<Key>)
    requires n.Assign? && WellFormed(n, avail) && Sites(n) <= ws && i <= |n.targets|
    requires Sane(ws, t.top, avail + Declared(n)) && HeaderOpen(t) && Bars(ws, t.top, barred)
    requires Rooted(t.top, avail + Declared(n), Sites(n)) && (forall k <- Declared(n) :: Declares(t.top.frame, k))
    requires forall k <- bound :: Claims(ws, before, k)
    ensures var r := WriteTargets(ws, before, t, n.pos, n.targets[i..]);
            && HeaderOpen(r) && r.captured == t.captured && Grew(t, r, TargetKeys(n.targets[i..]))
            && forall k <- TargetsFollowing(n.targets[i..], bound) :: k !in barred + t.captured ==> Claims(ws, r, k)
    decreases |n.targets| - i
  {
    hide Sane, Rooted, Lookup, Grew, HeaderOpen, Follows, KilledWithin;
    var all := avail + Declared(n);
    if i == |n.targets| {
      assert n.targets[i..] == [] && TargetKeys([]) == {} && TargetsFollowing([], bound) == {};
      NothingWritten(t);
    } else {
      var x, rest := n.targets[i], n.targets[i + 1..];
      var u := WriteTarget(ws, before, t, n.pos, x);
      assert x in n.targets && x.key in TargetKeys(n.targets) && n.targets[i..][1..] == rest && n.targets[i..][0] == x;
      assert x.key in all && (x.key !in n.decls ==> x.key in avail && x.key.from <= n.pos);
      TargetJudged(ws, before, t, n, x, all, bound, barred);
      BarsByOutline(ws, t.top, u.top, barred);
      RootedByOutline(t.top, u.top, all, Sites(n));
      assert Blank(t.top.frame) == Blank(u.top.frame);
      TargetsJudged(ws, before, u, n, i + 1, avail, bound, barred);
      var r := WriteTargets(ws, before, u, n.pos, rest);
      assert TargetKeys(n.targets[i..]) == {x.key} + TargetKeys(rest);
      GrewTransitive(t, u, r, {x.key}, TargetKeys(rest));
      FirstFollows(n.targets[i..], bound);
      forall k | k in TargetsFollowing(n.targets[i..], bound) && k !in barred + t.captured ensures Claims(ws, r, k) {
        if k !in TargetsFollowing(rest, bound) {
          assert k == x.key && k !in TargetKeys(rest);
          UnwrittenKeepsBinding(ws, u, r, TargetKeys(rest), k);
        }
      }
    }
  }

  lemma NothingWritten(t: Tracker)
    ensures Grew(t, t, {})
  {
    StackGrewReflexive(t.top, {});
  }

  lemma FirstFollows(ts: seq<Target>, bound: set<Key>)
    requires ts != [] && forall i, j | 0 <= i < j < |ts| :: ts[i].key != ts[j].key
    ensures TargetsFollowing(ts, bound) == (if Follows(ts[0].rhs, bound) then {ts[0].key} else {}) + TargetsFollowing(ts[1..], bound)
    ensures ts[0].key !in TargetKeys(ts[1..])
  {
    assert forall t <- ts :: t == ts[0] || t in ts[1..];
  }

  // ----- entering and leaving

  lemma EnterVouches(ws: set<Site>, n: Node, t: Tracker, avail: set<Key>, fell: set<Key>, s: Sure)
    requires n.Scope? && Alone(ws, n) && Vouches(ws, t, avail, s) && t.top.frame.fallthroughWrites <= fell
    ensures Vouches(ws, Enter(t, n), avail, Sure(s.bound - fell - Unsettled(ws, n), s.lost))
  {
    var e, f := Enter(t, n), t.top.frame;
    forall k | k in s.bound - fell - Unsettled(ws, n) ensures Claims(ws, e, k) {
      assert k !in e.top.frame.values;
      if ReassignedWhileRunning(ws, e.top.frame, k) {
        assert ReassignedWhileRunning(ws, NewFrame(n, map[]), k);
        SettledRuns(ws, n, k);
      }
      ClaimedIsFree(ws, t, k);
      TopLookup(ws, t.top, f.(fallthroughWrites := {}), k, false);
    }
  }

  /** Leaving a scope captures what a literal wrote, and nothing else. */
  lemma LeaveCaptures(ws: set<Site>, n: Node, t: Tracker, avail: set<Key>, lost: set<Key>)
    requires n.Scope? && Placed(ws, n, t, avail) && BodyWalked(ws, n, t).captured <= lost
    ensures Walk(ws, n, t).t.captured <= lost + if n.kind.LitK? then Writes(n) else {}
  {
    hide WellFormed, WellFormedIn, Writes, WritesIn, Lookup, Walk, WalkIn, Sites, SitesIn, Tracks, PlacedIn, StackGrew, LeaveInto;
    var e, r := Enter(t, n), BodyWalked(ws, n, t);
    ScopeSteps(ws, n, t, avail);
    WalkIsLeft(ws, n, t);
    TopGrew(e, r, Writes(n));
    if n.kind.LitK? {
      NothingFell(ws, t, avail);
    }
  }

  lemma WalkIsLeft(ws: set<Site>, n: Node, t: Tracker)
    requires n.Scope?
    ensures Walk(ws, n, t).t == Leave(BodyWalked(ws, n, t))
  {
  }

  lemma TopGrew(t: Tracker, r: Tracker, w: set<Key>)
    requires Grew(t, r, w)
    ensures WrittenKeys(r.top.frame) <= WrittenKeys(t.top.frame) + w
  {
  }

  lemma LeaveFell(ws: set<Site>, n: Node, t: Tracker, avail: set<Key>, fell: set<Key>)
    requires n.Scope? && Placed(ws, n, t, avail) && t.top.frame.fallthroughWrites <= fell
    ensures Walk(ws, n, t).t.top.frame.fallthroughWrites <= FellOn(n, fell)
  {
    hide WellFormed, WellFormedIn, Writes, WritesIn, Lookup, Walk, WalkIn, Sites, SitesIn, Tracks, PlacedIn;
    ScopeSteps(ws, n, t, avail);
    if t.top.frame.kind.CasesK? {
      BranchKeepsValues(ws, n, t, avail);
      assert FrameGrew(Enter(t, n).top.frame, BodyWalked(ws, n, t).top.frame, Writes(n));
    } else {
      assert Blank(t.top.frame) == Blank(Walk(ws, n, t).t.top.frame);
      WalkKeeps(ws, n, t, avail);
      assert FrameSane(Walk(ws, n, t).t.top.frame, avail + Declared(n));
    }
  }

  /** A block or clause that is one alternative leaves its siblings every binding but those captured. */
  lemma AlternativeKnown(ws: set<Site>, n: Node, t: Tracker, avail: set<Key>, k: Key)
    requires n.Scope? && (n.kind.ClauseK? || (n.kind.BlockK? && t.top.frame.kind.IfK?)) && Placed(ws, n, t, avail)
    requires Claims(ws, t, k) && k !in Walk(ws, n, t).t.captured
    ensures Claims(ws, Walk(ws, n, t).t, k)
  {
    hide WellFormed, WellFormedIn, Writes, WritesIn, Walk, WalkIn, Sites, SitesIn, Tracks, PlacedIn;
    var r := Walk(ws, n, t).t;
    ScopeSteps(ws, n, t, avail);
    BranchKeepsValues(ws, n, t, avail);
    ClaimedIsFree(ws, t, k);
    assert Blank(t.top.frame) == Blank(r.top.frame);
    assert r.top == OnTop(t.top, r.top.frame);
    TopLookup(ws, t.top, r.top.frame, k, false);
  }

  /** What an if or switch header leaves known stays known where the statement's own scopes do not write it. */
  lemma HeaderKnown(ws: set<Site>, n: Node, t: Tracker, avail: set<Key>, k: Key)
    requires n.Scope? && IsHeader(n.kind) && !t.top.frame.kind.IfK? && Placed(ws, n, t, avail)
    requires HeaderOpen(HeaderWalked(ws, n, t)) && Claims(ws, HeaderWalked(ws, n, t), k)
    requires k.from <= n.pos && k !in WritesIn(n.body) && k !in Walk(ws, n, t).t.captured
    ensures Claims(ws, Walk(ws, n, t).t, k)
  {
    hide WritesIn;
    var h, r := HeaderWalked(ws, n, t), BodyWalked(ws, n, t);
    ScopeSteps(ws, n, t, avail);
    ClaimedIsFree(ws, h, k);
    assert n.declares == h.top.frame.declares && k !in n.declares;
    assert k !in WrittenKeys(h.top.frame) && FrameGrew(h.top.frame, r.top.frame, WritesIn(n.body));
    UnwrittenKeepsBinding(ws, h, r, WritesIn(n.body), k);
    LeaveLookup(ws, r, k);
  }

  lemma AfterVouches(ws: set<Site>, n: Node, t: Tracker, avail: set<Key>, s: Sure, header: Sure, body: Sure)
    requires n.Scope? && Placed(ws, n, t, avail) && Vouches(ws, t, avail, s)
    requires IsHeader(n.kind) ==> HeaderOpen(HeaderWalked(ws, n, t))
    requires Vouches(ws, HeaderWalked(ws, n, t), InnerScope(n, avail), header)
    requires Vouches(ws, BodyWalked(ws, n, t), InnerScope(n, avail) + DeclaredIn(n.body), body)
    ensures var lost := body.lost + if n.kind.LitK? then Writes(n) else {};
            Vouches(ws, Walk(ws, n, t).t, avail, Sure(BoundAfter(n, t.top.frame.kind, s, header, body, lost), lost))
  {
    hide WellFormed, WellFormedIn, Sane, Walk, WalkIn, Sites, Writes, WritesIn, Lookup, Grew, HeaderOpen, PlacedIn, Tracks;
    var lost, r := body.lost + if n.kind.LitK? then Writes(n) else {}, Walk(ws, n, t).t;
    var bound := BoundAfter(n, t.top.frame.kind, s, header, body, lost);
    LeaveCaptures(ws, n, t, avail, body.lost);
    OuterIsAvailable(n, avail);
    ScopeSteps(ws, n, t, avail);
    forall k | k in bound ensures k in avail && Claims(ws, r, k) {
      if n.kind.BlockK? && (t.top.frame.kind.BlockK? || t.top.frame.kind.ClauseK?) {
        CarryClaims(ws, n, t, avail, k);
      } else if n.kind.ClauseK? || (n.kind.BlockK? && t.top.frame.kind.IfK?) {
        AlternativeKnown(ws, n, t, avail, k);
      } else if IsHeader(n.kind) && !t.top.frame.kind.IfK? {
        HeaderKnown(ws, n, t, avail, k);
      } else {
        UnwrittenKeepsBinding(ws, t, r, Writes(n), k);
      }
    }
  }

  /** The variables of a scope that were declared before it are those in scope around it. */
  lemma OuterIsAvailable(n: Node, avail: set<Key>)
    requires n.Scope? && WellFormed(n, avail)
    ensures forall k <- InnerScope(n, avail) + DeclaredIn(n.body) :: k.from <= n.pos ==> k in avail
  {
    ScopeDeclares(n, avail);
  }

  // ----- the walk

  /** Where the walk stands: nothing here says what it holds. */
  ghost predicate StandsWell(ws: set<Site>, t: Tracker, avail: set<Key>, sites: set<Site>, barred: set<Key>, fell: set<Key>) {
    Rooted(t.top, avail, sites) && Bars(ws, t.top, barred) && t.top.frame.fallthroughWrites <= fell
  }

  /** Every registration judged certain is resolved, and so is every variable judged known. */
  lemma {:induction false} JudgedRight(ws: set<Site>, n: Node, t: Tracker, avail: set<Key>, barred: set<Key>, fell: set<Key>, s: Sure)
    requires Placed(ws, n, t, avail) && Alone(ws, n) && StandsWell(ws, t, avail, Sites(n), barred, fell) && Vouches(ws, t, avail, s)
    requires HeaderOpen(t) || (n.Scope? && !n.kind.LitK?)
    ensures var (c, r) := (Judge(ws, n, t.top.frame.kind, barred, fell, s), Walk(ws, n, t));
            && ResolvedAt(r.log, c.spots) && Vouches(ws, r.t, avail + Declared(n), c.after)
            && r.t.top.frame.fallthroughWrites <= FellOn(n, fell)
            && (HeaderOpen(t) && (n.Scope? ==> n.kind.LitK?) ==> HeaderOpen(r.t))
    decreases n, 2
  {
    match n
    case Call(_, _, _, _) => CallJudged(ws, n, t, avail, barred, fell, s);
    case Assign(_, _, _, _, _) => AssignJudged(ws, n, t, avail, barred, fell, s);
    case Scope(_, _, _, _, _, _) => ScopeJudged(ws, n, t, avail, barred, fell, s);
  }

  /** The expressions of a call or assignment. */
  lemma {:induction false} InnerJudged(ws: set<Site>, n: Node, t: Tracker, avail: set<Key>, barred: set<Key>, fell: set<Key>, s: Sure)
    requires !n.Scope? && Placed(ws, n, t, avail) && Alone(ws, n) && StandsWell(ws, t, avail, Sites(n), barred, fell) && Vouches(ws, t, avail, s)
    requires HeaderOpen(t)
    ensures var (c, r) := (JudgeIn(ws, n.inner, t.top.frame.kind, barred, {}, s), WalkIn(ws, n.inner, t));
            && ResolvedAt(r.log, c.spots) && Vouches(ws, r.t, avail, c.after) && HeaderOpen(r.t)
            && Sane(ws, r.t.top, avail) && Outline(r.t.top) == Outline(t.top) && r.t.top.frame.fallthroughWrites == {}
            && (forall e <- r.log :: e.Registration? ==> InnerStart(n) <= e.pos < n.end)
            && (forall p <- c.spots :: InnerStart(n) <= p < n.end)
    decreases n, 0
  {
    hide Rooted, Sane, Bars, Vouches, Claims, Lookup, HeaderOpen, Grew, ResolvedAt, Judge, Walk;
    var lo := InnerStart(n);
    PartsAlone(ws, n, avail);
    ExpressionsFit(t.top.frame.kind, n.inner);
    ExpressionsDeclareNothing(n.inner);
    ExpressionsAreHeaderNodes(n.inner);
    RootedLess(t.top, avail, avail, Sites(n), SitesIn(n.inner));
    NothingFell(ws, t, avail);
    JudgedRightIn(ws, n.inner, t, lo, n.end, avail, barred, {}, s);
    WalkInKeeps(ws, n.inner, t, lo, n.end, avail);
    assert avail + DeclaredIn(n.inner) == avail;
    LogInside(ws, n.inner, t, lo, n.end, avail);
    SpotsInsideIn(ws, n.inner, t.top.frame.kind, barred, {}, s, lo, n.end, avail);
    AfterIsAhead(n.inner, lo, n.end, avail);
    NothingFell(ws, WalkIn(ws, n.inner, t).t, avail);
  }

  lemma NothingFell(ws: set<Site>, t: Tracker, avail: set<Key>)
    requires Sane(ws, t.top, avail) && !t.top.frame.kind.CasesK?
    ensures t.top.frame.fallthroughWrites == {}
  {
  }

  lemma {:induction false} CallJudged(ws: set<Site>, n: Node, t: Tracker, avail: set<Key>, barred: set<Key>, fell: set<Key>, s: Sure)
    requires n.Call? && Placed(ws, n, t, avail) && Alone(ws, n) && StandsWell(ws, t, avail, Sites(n), barred, fell) && Vouches(ws, t, avail, s)
    requires HeaderOpen(t)
    ensures var (c, r) := (Judge(ws, n, t.top.frame.kind, barred, fell, s), Walk(ws, n, t));
            && ResolvedAt(r.log, c.spots) && Vouches(ws, r.t, avail + Declared(n), c.after)
            && r.t.top.frame.fallthroughWrites == {} && HeaderOpen(r.t)
    decreases n, 1
  {
    hide WellFormed, Rooted, Sane, Bars, Lookup, HeaderOpen, ResolvedAt;
    InnerJudged(ws, n, t, avail, barred, fell, s);
    var c, w := JudgeIn(ws, n.inner, t.top.frame.kind, barred, {}, s), WalkIn(ws, n.inner, t);
    assert avail + Declared(n) == avail;
    if n.registrar.Some? {
      var own := [Registration(n.pos, n.registrar.value, Lookup(ws, t, n.registrar.value))];
      var spot := if n.registrar.value in s.bound then {n.pos} else {};
      OwnResolved(ws, t, n, s);
      ResolvedThen(own, w.log, spot, c.spots, n.pos + 1);
      assert spot + c.spots == c.spots + spot;
    } else {
      assert [] + w.log == w.log && c.spots + {} == c.spots;
    }
  }

  lemma OwnResolved(ws: set<Site>, t: Tracker, n: Node, s: Sure)
    requires n.Call? && n.registrar.Some? && forall k <- s.bound :: Claims(ws, t, k)
    ensures ResolvedAt([Registration(n.pos, n.registrar.value, Lookup(ws, t, n.registrar.value))],
                       if n.registrar.value in s.bound then {n.pos} else {})
  {
  }

  lemma {:induction false} AssignJudged(ws: set<Site>, n: Node, t: Tracker, avail: set<Key>, barred: set<Key>, fell: set<Key>, s: Sure)
    requires n.Assign? && Placed(ws, n, t, avail) && Alone(ws, n) && StandsWell(ws, t, avail, Sites(n), barred, fell) && Vouches(ws, t, avail, s)
    requires HeaderOpen(t)
    ensures var (c, r) := (Judge(ws, n, t.top.frame.kind, barred, fell, s), Walk(ws, n, t));
            && ResolvedAt(r.log, c.spots) && Vouches(ws, r.t, avail + Declared(n), c.after)
            && r.t.top.frame.fallthroughWrites == {} && HeaderOpen(r.t)
    decreases n, 1
  {
    hide Rooted, Sane, Bars, Lookup, HeaderOpen, ResolvedAt, Grew, WellFormedIn, SitesIn;
    InnerJudged(ws, n, t, avail, barred, fell, s);
    var c, w, all := JudgeIn(ws, n.inner, t.top.frame.kind, barred, {}, s), WalkIn(ws, n.inner, t), avail + Declared(n);
    var r := Walk(ws, n, t);
    SaneWidens(ws, w.t.top, avail, all);
    BarsByOutline(ws, t.top, w.t.top, barred);
    RootedByOutline(t.top, w.t.top, avail, Sites(n));
    assert Blank(t.top.frame) == Blank(w.t.top.frame);
    RootedLess(w.t.top, avail, all, Sites(n), Sites(n));
    TargetsJudged(ws, t, w.t, n, 0, avail, s.bound, barred);
    assert n.targets[0..] == n.targets;
    forall k | k in c.after.bound - TargetKeys(n.targets) ensures Claims(ws, r.t, k) {
      UnwrittenKeepsBinding(ws, w.t, r.t, TargetKeys(n.targets), k);
    }
    HazardsResolve(ws, t, n.pos, n.targets);
    ResolvedThen(Hazards(ws, t, n.pos, n.targets), w.log, {}, c.spots, n.pos);
    assert {} + c.spots == c.spots;
    TargetsFallNowhere(ws, t, w.t, n.pos, n.targets);
  }

  lemma {:induction false} HazardsResolve(ws: set<Site>, t: Tracker, pos: Pos, targets: seq<Target>)
    ensures forall e <- Hazards(ws, t, pos, targets) :: !e.Registration?
    ensures ResolvedAt(Hazards(ws, t, pos, targets), {})
    decreases |targets|
  {
    if targets != [] {
      HazardsResolve(ws, t, pos, targets[1..]);
    }
  }

  lemma {:induction false} TargetsFallNowhere(ws: set<Site>, before: Tracker, t: Tracker, pos: Pos, targets: seq<Target>)
    ensures WriteTargets(ws, before, t, pos, targets).top.frame.fallthroughWrites == t.top.frame.fallthroughWrites
    decreases |targets|
  {
    if targets != [] {
      TargetsFallNowhere(ws, before, WriteTarget(ws, before, t, pos, targets[0]), pos, targets[1..]);
    }
  }

  lemma {:induction false} ScopeJudged(ws: set<Site>, n: Node, t: Tracker, avail: set<Key>, barred: set<Key>, fell: set<Key>, s: Sure)
    requires n.Scope? && Placed(ws, n, t, avail) && Alone(ws, n) && StandsWell(ws, t, avail, Sites(n), barred, fell) && Vouches(ws, t, avail, s)
    requires HeaderOpen(t) || !n.kind.LitK?
    ensures var (c, r) := (Judge(ws, n, t.top.frame.kind, barred, fell, s), Walk(ws, n, t));
            && ResolvedAt(r.log, c.spots) && Vouches(ws, r.t, avail, c.after)
            && r.t.top.frame.fallthroughWrites <= FellOn(n, fell)
            && (n.kind.LitK? ==> HeaderOpen(r.t))
    decreases n, 1
  {
    hide WellFormed, WellFormedIn, Sane, Walk, WalkIn, Sites, SitesIn, Writes, WritesIn, Lookup, Grew, Rooted, Bars, Vouches, HeaderOpen, Judge, JudgeIn,
         Tracks, Unsettled, Alone, AloneIn, ResolvedAt, BoundAfter, Enter;
    var outer, stops := t.top.frame.kind, Unsettled(ws, n);
    var in0, h := Sure(s.bound - fell - stops, s.lost), HeaderWalked(ws, n, t);
    var c := JudgeIn(ws, n.header, n.kind, barred + stops, {}, in0);
    var d := JudgeIn(ws, n.body, n.kind, barred + stops, {}, c.after);
    ScopeSteps(ws, n, t, avail);
    HeaderStands(ws, n, t, avail, barred, fell, s);
    JudgedRightIn(ws, n.header, Enter(t, n), n.pos, n.end, avail, barred + stops, {}, in0);
    ScopeDeclares(n, avail);
    VouchesWidens(ws, h, avail + DeclaredIn(n.header), InnerScope(n, avail), c.after);
    BodyStands(ws, n, t, avail, barred + stops, c.after);
    JudgedRightIn(ws, n.body, h, After(n.header, n.pos), n.end, InnerScope(n, avail), barred + stops, {}, c.after);
    AfterVouches(ws, n, t, avail, s, c.after, d.after);
    ScopeJudgment(ws, n, outer, barred, fell, s);
    LeaveFell(ws, n, t, avail, fell);
    assert t.captured <= Walk(ws, n, t).t.captured by {
      CapturedGrow(t, Walk(ws, n, t).t, Writes(n));
    }
    if n.kind.LitK? {
      LiteralLeavesOpen(ws, n, t);
    }
    SpotsInsideIn(ws, n.header, n.kind, barred + stops, {}, in0, n.pos, n.end, avail);
    SpotsInsideIn(ws, n.body, n.kind, barred + stops, {}, c.after, After(n.header, n.pos), n.end, InnerScope(n, avail));
    ScopeSpots(ws, n, t, avail, c.spots, d.spots);
  }

  lemma CapturedGrow(t: Tracker, r: Tracker, w: set<Key>)
    requires Grew(t, r, w)
    ensures t.captured <= r.captured
  {
  }

  lemma VouchesWidens(ws: set<Site>, t: Tracker, avail: set<Key>, more: set<Key>, s: Sure)
    requires Vouches(ws, t, avail, s) && avail <= more
    ensures Vouches(ws, t, more, s)
  {
  }

  lemma HeaderStands(ws: set<Site>, n: Node, t: Tracker, avail: set<Key>, barred: set<Key>, fell: set<Key>, s: Sure)
    requires n.Scope? && Placed(ws, n, t, avail) && Alone(ws, n) && StandsWell(ws, t, avail, Sites(n), barred, fell) && Vouches(ws, t, avail, s)
    ensures var e, stops := Enter(t, n), Unsettled(ws, n);
            && AloneIn(ws, n.header, n.pos) && StandsWell(ws, e, avail, SitesIn(n.header), barred + stops, {})
            && Vouches(ws, e, avail, Sure(s.bound - fell - stops, s.lost))
            && AreHeaderNodes(n.header) && HeaderOpen(e) && e.top.frame.kind == n.kind
  {
    hide WellFormedIn, Rooted, Bars, Vouches, Unsettled, Alone, AloneIn;
    var e := Enter(t, n);
    PartsAlone(ws, n, avail);
    EnterRooted(t, n, avail);
    RootedLess(e.top, avail + KeySet(n.declares), avail, Sites(n), SitesIn(n.header));
    EnterBars(ws, t, n, barred);
    EnterVouches(ws, n, t, avail, fell, s);
    HeadersAreHeaderNodes(n);
    if IsHeader(n.kind) {
      NothingFell(ws, t, avail);
    }
  }

  lemma BodyStands(ws: set<Site>, n: Node, t: Tracker, avail: set<Key>, barred: set<Key>, s: Sure)
    requires n.Scope? && Placed(ws, n, t, avail) && Alone(ws, n) && Rooted(t.top, avail, Sites(n))
    requires Bars(ws, Enter(t, n).top, barred) && HeaderWalked(ws, n, t).top.frame.fallthroughWrites == {}
    ensures var h := HeaderWalked(ws, n, t);
            && AloneIn(ws, n.body, After(n.header, n.pos)) && StandsWell(ws, h, InnerScope(n, avail), SitesIn(n.body), barred, {})
            && (IsHeader(n.kind) ==> AreScopes(n.body)) && h.top.frame.kind == n.kind
  {
    hide WellFormedIn, Rooted, Bars, Alone, AloneIn;
    var e, h := Enter(t, n), HeaderWalked(ws, n, t);
    PartsAlone(ws, n, avail);
    EnterRooted(t, n, avail);
    RootedByOutline(e.top, h.top, avail + KeySet(n.declares), Sites(n));
    ScopeDeclares(n, avail);
    RootedLess(h.top, avail + KeySet(n.declares), InnerScope(n, avail), Sites(n), SitesIn(n.body));
    BarsByOutline(ws, e.top, h.top, barred);
    assert Blank(e.top.frame) == Blank(h.top.frame);
    if IsHeader(n.kind) {
      BodiesAreScopes(n);
    }
  }

  lemma LiteralLeavesOpen(ws: set<Site>, n: Node, t: Tracker)
    requires n.Scope? && n.kind.LitK? && HeaderOpen(t) && t.captured <= Walk(ws, n, t).t.captured
    ensures HeaderOpen(Walk(ws, n, t).t)
  {
    WalkInReaches(ws, n.header, Enter(t, n));
    WalkInReaches(ws, n.body, HeaderWalked(ws, n, t));
    var r := BodyWalked(ws, n, t);
    var outer := t.top.frame.(fallthroughWrites := {});
    assert r.top.parent == OnTop(t.top, outer) && r.top.frame.kind.LitK?;
    assert WrittenKeys(LeaveInto(outer, r.top.frame)) == WrittenKeys(outer) + Outward(r.top.frame);
  }

  lemma ScopeJudgment(ws: set<Site>, n: Node, outer: Kind, barred: set<Key>, fell: set<Key>, s: Sure)
    requires n.Scope?
    ensures var stops := Unsettled(ws, n);
            var c := JudgeIn(ws, n.header, n.kind, barred + stops, {}, Sure(s.bound - fell - stops, s.lost));
            var d := JudgeIn(ws, n.body, n.kind, barred + stops, {}, c.after);
            var lost := d.after.lost + if n.kind.LitK? then Writes(n) else {};
            Judge(ws, n, outer, barred, fell, s) == Certain(Sure(BoundAfter(n, outer, s, c.after, d.after, lost), lost), c.spots + d.spots)
  {
  }

  lemma ScopeLog(ws: set<Site>, n: Node, t: Tracker)
    requires n.Scope?
    ensures Walk(ws, n, t).log == WalkIn(ws, n.header, Enter(t, n)).log + WalkIn(ws, n.body, HeaderWalked(ws, n, t)).log
  {
  }

  /** Header and body, each where it stands. */
  lemma ScopeSpots(ws: set<Site>, n: Node, t: Tracker, avail: set<Key>, some: set<Pos>, more: set<Pos>)
    requires n.Scope? && WellFormed(n, avail)
    requires ResolvedAt(WalkIn(ws, n.header, Enter(t, n)).log, some) && ResolvedAt(WalkIn(ws, n.body, HeaderWalked(ws, n, t)).log, more)
    requires forall p <- some :: p < After(n.header, n.pos)
    requires forall p <- more :: After(n.header, n.pos) <= p
    ensures ResolvedAt(Walk(ws, n, t).log, some + more)
  {
    hide WellFormedIn, Enter, ResolvedAt, WalkIn;
    LogInside(ws, n.header, Enter(t, n), n.pos, n.end, avail);
    LogInside(ws, n.body, HeaderWalked(ws, n, t), After(n.header, n.pos), n.end, InnerScope(n, avail));
    ResolvedThen(WalkIn(ws, n.header, Enter(t, n)).log, WalkIn(ws, n.body, HeaderWalked(ws, n, t)).log, some, more, After(n.header, n.pos));
    ScopeLog(ws, n, t);
  }

  lemma HeadStands(ws: set<Site>, ns: Nodes, t: Tracker, lo: Pos, hi: Pos, avail: set<Key>, barred: set<Key>, fell: set<Key>)
    requires ns.Cons? && PlacedIn(ws, ns, t, lo, hi, avail) && StandsWell(ws, t, avail, SitesIn(ns), barred, fell)
    ensures Placed(ws, ns.head, t, avail) && StandsWell(ws, t, avail, Sites(ns.head), barred, fell)
  {
    hide WellFormed, Sane, Rooted, Bars;
    RootedLess(t.top, avail, avail, SitesIn(ns), Sites(ns.head));
    assert DeclaredIn(ns) == Declared(ns.head) + DeclaredIn(ns.tail);
  }

  lemma TailStands(ws: set<Site>, ns: Nodes, t: Tracker, lo: Pos, hi: Pos, avail: set<Key>, barred: set<Key>)
    requires ns.Cons? && PlacedIn(ws, ns, t, lo, hi, avail) && Rooted(t.top, avail, SitesIn(ns)) && Bars(ws, t.top, barred)
    ensures var u, next := Walk(ws, ns.head, t).t, avail + Declared(ns.head);
            && PlacedIn(ws, ns.tail, u, ns.head.end, hi, next) && u.top.frame.kind == t.top.frame.kind
            && Rooted(u.top, next, SitesIn(ns.tail)) && Bars(ws, u.top, barred)
  {
    hide WellFormed, Sane, Rooted, Bars, Walk, Grew;
    var u, next := Walk(ws, ns.head, t).t, avail + Declared(ns.head);
    assert DeclaredIn(ns) == Declared(ns.head) + DeclaredIn(ns.tail);
    WalkKeeps(ws, ns.head, t, avail);
    assert Blank(t.top.frame) == Blank(u.top.frame);
    RootedByOutline(t.top, u.top, avail, SitesIn(ns));
    RootedLess(u.top, avail, next, SitesIn(ns), SitesIn(ns.tail));
    BarsByOutline(ws, t.top, u.top, barred);
  }

  lemma ListSpots(ws: set<Site>, ns: Nodes, t: Tracker, lo: Pos, hi: Pos, avail: set<Key>, barred: set<Key>, fell: set<Key>, s: Sure)
    requires ns.Cons? && WellFormedIn(ns, lo, hi, avail)
    requires var (c, w) := (Judge(ws, ns.head, t.top.frame.kind, barred, fell, s), Walk(ws, ns.head, t));
             var d := JudgeIn(ws, ns.tail, t.top.frame.kind, barred, FellOn(ns.head, fell), c.after);
             ResolvedAt(w.log, c.spots) && ResolvedAt(WalkIn(ws, ns.tail, w.t).log, d.spots)
    ensures ResolvedAt(WalkIn(ws, ns, t).log, JudgeIn(ws, ns, t.top.frame.kind, barred, fell, s).spots)
  {
    hide WellFormed, ResolvedAt, Judge, Walk, FellOn;
    var outer, more, next := t.top.frame.kind, FellOn(ns.head, fell), avail + Declared(ns.head);
    var c, w := Judge(ws, ns.head, outer, barred, fell, s), Walk(ws, ns.head, t);
    var d := JudgeIn(ws, ns.tail, outer, barred, more, c.after);
    WalkOrdered(ws, ns.head, t, avail);
    LogInside(ws, ns.tail, w.t, ns.head.end, hi, next);
    SpotsInside(ws, ns.head, outer, barred, fell, s, avail);
    SpotsInsideIn(ws, ns.tail, outer, barred, more, c.after, ns.head.end, hi, next);
    ResolvedThen(w.log, WalkIn(ws, ns.tail, w.t).log, c.spots, d.spots, ns.head.end);
  }

  lemma {:induction false} JudgedRightIn(ws: set<Site>, ns: Nodes, t: Tracker, lo: Pos, hi: Pos, avail: set<Key>, barred: set<Key>, fell: set<Key>, s: Sure)
    requires PlacedIn(ws, ns, t, lo, hi, avail) && AloneIn(ws, ns, lo) && StandsWell(ws, t, avail, SitesIn(ns), barred, fell) && Vouches(ws, t, avail, s)
    requires IsHeader(t.top.frame.kind) ==> AreScopes(ns) || (AreHeaderNodes(ns) && HeaderOpen(t))
    ensures var (c, r) := (JudgeIn(ws, ns, t.top.frame.kind, barred, fell, s), WalkIn(ws, ns, t));
            && ResolvedAt(r.log, c.spots) && Vouches(ws, r.t, avail + DeclaredIn(ns), c.after)
            && (AreHeaderNodes(ns) && t.top.frame.fallthroughWrites == {} ==> r.t.top.frame.fallthroughWrites == {})
            && (HeaderOpen(t) && AreHeaderNodes(ns) ==> HeaderOpen(r.t))
    decreases ns, 0
  {
    if ns.Cons? {
      var head, tail, w := ns.head, ns.tail, Walk(ws, ns.head, t);
      var next, more := avail + Declared(head), FellOn(head, fell);
      var c := Judge(ws, head, t.top.frame.kind, barred, fell, s);
      var d := JudgeIn(ws, tail, t.top.frame.kind, barred, more, c.after);
      ListAlone(ws, ns, lo, hi, avail);
      HeadStands(ws, ns, t, lo, hi, avail, barred, fell);
      JudgedRight(ws, head, t, avail, barred, fell, s);
      TailStands(ws, ns, t, lo, hi, avail, barred);
      JudgedRightIn(ws, tail, w.t, head.end, hi, next, barred, more, c.after);
      assert avail + DeclaredIn(ns) == next + DeclaredIn(tail);
      ListSpots(ws, ns, t, lo, hi, avail, barred, fell, s);
    }
  }

  // ----- whole functions

  function Seeded(seeds: map<Key, Prefix>): Sure {
    Sure(set k | k in seeds && seeds[k].resolved, {})
  }

  /** The registrations of a function that are certain, given what a caller said of its parameters. */
  function CertainSpots(body: Node, seeds: map<Key, Prefix>): set<Pos> {
    Judge(Sites(body), body, RootK, {}, {}, Seeded(seeds)).spots
  }

  /** The analysis resolves every registration that is certain. */
  lemma CertainIsResolved(body: Node, params: seq<Key>, seeds: map<Key, Prefix>)
    requires IsFunction(body, params, seeds)
    ensures ResolvedAt(Analyzed(body, params, seeds), CertainSpots(body, seeds))
  {
    var ws, t, avail := Sites(body), Start(body, params, seeds), KeySet(params);
    hide WellFormed, Walk, Sites, Judge, ResolvedAt;
    assert Placed(ws, body, t, avail) && Alone(ws, body) && Rooted(t.top, avail, ws);
    assert forall k :: !KilledWithin(ws, t.top, k);
    forall k | k in Seeded(seeds).bound ensures Claims(ws, t, k) {
      assert Lookup(ws, t, k) == Some(seeds[k]);
    }
    assert HeaderOpen(t);
    JudgedRight(ws, body, t, avail, {}, {}, Seeded(seeds));
  }

  /** So each of them, on a variable not given up, is handed in every run exactly the registrar the analysis says. */
  lemma CertainIsExact(body: Node, params: seq<Key>, seeds: map<Key, Prefix>, args: seq<Value>, plan: Plan, z: set<Key>)
    requires IsFunction(body, params, seeds) && HandedBut(params, seeds, args, z)
    requires Independent(body, z) && HazardsWithin(Analyzed(body, params, seeds), z)
    ensures forall o <- Observed(body, params, args, plan) :: o.key !in z && o.pos in CertainSpots(body, seeds) ==>
              exists e <- Analyzed(body, params, seeds) ::
                e.Registration? && e.pos == o.pos && e.key == o.key && IsResolved(e.prefix) && o.value == Registrar(e.prefix.value.path)
  {
    var log := Analyzed(body, params, seeds);
    CertainIsResolved(body, params, seeds);
    hide IsFunction, HandedBut, Independent, Observed, Analyzed, CertainSpots, HazardsWithin;
    TrustedIsSound(body, params, seeds, args, plan, z);
    forall o | o in Observed(body, params, args, plan) && o.key !in z && o.pos in CertainSpots(body, seeds)
      ensures exists e <- log :: e.Registration? && e.pos == o.pos && e.key == o.key && IsResolved(e.prefix) && o.value == Registrar(e.prefix.value.path)
    {
      var e :| e in log && e.Registration? && e.pos == o.pos && e.key == o.key;
      assert IsResolved(e.prefix);
    }
  }

  /** After any code that ends, but for an alternative that its siblings follow, looking up a variable judged known gives what its cell holds. */
  lemma CertainHolds(ws: set<Site>, log: seq<Entry>, n: Node, choice: Choice, env: Env, a: World, t: Tracker, barred: set<Key>, fell: set<Key>, s: Sure)
    requires AllRegistrations(log) && Runnable(ws, log, n, t, env.Keys) && Ready(ws, log, t, env, Writes(n), {}, a)
    requires Alone(ws, n) && StandsWell(ws, t, env.Keys, Sites(n), barred, fell) && Vouches(ws, t, env.Keys, s)
    requires HeaderOpen(t) || (n.Scope? && !n.kind.LitK?)
    requires !IsBranching(t.top.frame.kind) || !n.Scope? || n.kind.LitK?
    ensures var (o, r) := (Run(n, choice, env, a.st), Walk(ws, n, t).t);
            o.normal ==> forall k <- Judge(ws, n, t.top.frame.kind, barred, fell, s).after.bound ::
              k in o.env && o.env[k] < |o.st.cells|
              && IsResolved(Lookup(ws, r, k)) && o.st.cells[o.env[k]].value == Registrar(Lookup(ws, r, k).value.path)
  {
    hide Walk, Run, Effect, Sound, Lookup, Writes, Judge, Rooted, Sane, WellFormed, Sites, Alone, Ready, HeaderOpen, StandsWell, FreshCells;
    var o, r := Run(n, choice, env, a.st), Walk(ws, n, t).t;
    assert Placed(ws, n, t, env.Keys);
    JudgedRight(ws, n, t, env.Keys, barred, fell, s);
    var b := RunSound(ws, log, n, choice, env, a, t, {});
    if o.normal {
      assert Live(ws, r, o.env, o.st, {}) && o.env.Keys == env.Keys + Declared(n);
      forall k | k in Judge(ws, n, t.top.frame.kind, barred, fell, s).after.bound
        ensures k in o.env && o.env[k] < |o.st.cells|
        ensures IsResolved(Lookup(ws, r, k)) && o.st.cells[o.env[k]].value == Registrar(Lookup(ws, r, k).value.path)
      {
        assert Claims(ws, r, k) && ClaimHolds(ws, r, o.env, o.st, k);
      }
    }
  }
}
