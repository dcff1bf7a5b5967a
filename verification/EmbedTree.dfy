/** Extracting a struct's fields through the structs it embeds, and the one pass it amounts to. */
module EmbedTree {
  import opened Wrappers
  import opened Embed

  type StructId = string

  /** A struct's own fields, then the structs it embeds untagged, in order. */
  datatype Struct = Struct(own: seq<Decl>, embeds: seq<StructId>)

  type Graph = map<StructId, Struct>

  function Own(g: Graph, s: StructId): (r: seq<Ranked>)
    requires s in g
    ensures |r| == |g[s].own|
  {
    seq(|g[s].own|, i requires 0 <= i < |g[s].own| => Ranked(g[s].own[i], 0))
  }

  function Left(g: Graph, visited: set<StructId>): nat {
    |g.Keys - visited|
  }

  lemma VisitShrinks(g: Graph, visited: set<StructId>, s: StructId)
    requires s in g && s !in visited
    ensures Left(g, visited + {s}) < Left(g, visited)
  {
    assert g.Keys - visited == (g.Keys - (visited + {s})) + {s};
  }

  /** The extraction: each embedded struct's fields are filtered before they are promoted; one on the chain adds nothing. */
  function Extract(g: Graph, s: StructId, visited: set<StructId>): seq<Ranked>
    requires s in g
    decreases Left(g, visited), |g[s].embeds| + 1
  {
    Dedupe(Drop(Own(g, s) + Promoted(g, s, |g[s].embeds|, visited)), {})
  }

  /** What the first n embedded structs promote. */
  function Promoted(g: Graph, s: StructId, n: nat, visited: set<StructId>): seq<Ranked>
    requires s in g && n <= |g[s].embeds|
    decreases Left(g, visited), n
  {
    if n == 0 then []
    else
      var e := g[s].embeds[n - 1];
      Promoted(g, s, n - 1, visited) + if e in g && e !in visited then (VisitShrinks(g, visited, e); Lift(Extract(g, e, visited + {e}), 1)) else []
  }

  /** All fields, unfiltered. */
  function Flat(g: Graph, s: StructId, visited: set<StructId>): seq<Ranked>
    requires s in g
    decreases Left(g, visited), |g[s].embeds| + 1
  {
    Own(g, s) + FlatBelow(g, s, |g[s].embeds|, visited)
  }

  function FlatBelow(g: Graph, s: StructId, n: nat, visited: set<StructId>): seq<Ranked>
    requires s in g && n <= |g[s].embeds|
    decreases Left(g, visited), n
  {
    if n == 0 then []
    else
      var e := g[s].embeds[n - 1];
      FlatBelow(g, s, n - 1, visited) + if e in g && e !in visited then (VisitShrinks(g, visited, e); Lift(Flat(g, e, visited + {e}), 1)) else []
  }

  // ----- parameters

  /** No two parameters claim one slot. */
  predicate UniqueParams(fs: seq<Ranked>) {
    forall i, j | 0 <= i < j < |fs| && fs[i].decl.param != "" :: fs[i].decl.param != fs[j].decl.param
  }

  lemma {:induction false} DedupeNothing(fs: seq<Ranked>, seen: set<string>)
    requires UniqueParams(fs) && forall f <- fs :: f.decl.param == "" || f.decl.param !in seen
    ensures Dedupe(fs, seen) == fs
    decreases |fs|
  {
    if fs != [] {
      var p := fs[0].decl.param;
      assert fs[0] in fs;
      assert UniqueParams(fs[1..]) by {
        forall i, j | 0 <= i < j < |fs[1..]| && fs[1..][i].decl.param != "" ensures fs[1..][i].decl.param != fs[1..][j].decl.param {
          assert fs[i + 1].decl.param != fs[j + 1].decl.param;
        }
      }
      forall f | f in fs[1..] ensures f.decl.param == "" || f.decl.param !in (if p != "" then seen + {p} else seen) {
        var i :| 0 <= i < |fs[1..]| && fs[1..][i] == f;
        assert fs[i + 1] == f;
      }
      DedupeNothing(fs[1..], if p != "" then seen + {p} else seen);
    }
  }

  lemma {:induction false} SieveParams(fs: seq<Ranked>, best: map<string, nat>, kept: set<string>)
    requires UniqueParams(fs)
    ensures UniqueParams(Sieve(fs, best, kept)) && forall f <- Sieve(fs, best, kept) :: f in fs
    decreases |fs|
  {
    if fs != [] {
      hide Stays, Won;
      var next := Won(fs[0], best, kept);
      ParamsTail(fs);
      SieveParams(fs[1..], best, next);
      var rest, out := Sieve(fs[1..], best, next), Sieve(fs, best, kept);
      forall i, j | 0 <= i < j < |out| && out[i].decl.param != "" ensures out[i].decl.param != out[j].decl.param {
        assert rest == out[1..] || rest == out;
        if out == [fs[0]] + rest && i == 0 {
          assert out[j] == rest[j - 1] && out[j] in fs[1..];
        } else if out == [fs[0]] + rest {
          assert out[i] == rest[i - 1] && out[j] == rest[j - 1];
        }
      }
    }
  }

  lemma ParamsTail(fs: seq<Ranked>)
    requires UniqueParams(fs) && fs != []
    ensures UniqueParams(fs[1..]) && forall f <- fs[1..] :: fs[0].decl.param != "" ==> f.decl.param != fs[0].decl.param
  {
    forall i, j | 0 <= i < j < |fs[1..]| && fs[1..][i].decl.param != "" ensures fs[1..][i].decl.param != fs[1..][j].decl.param {
      assert fs[i + 1].decl.param != fs[j + 1].decl.param;
    }
    forall f | f in fs[1..] && fs[0].decl.param != "" ensures f.decl.param != fs[0].decl.param {
      var i :| 0 <= i < |fs[1..]| && fs[1..][i] == f;
      assert fs[i + 1] == f;
    }
  }

  lemma ParamsPart(a: seq<Ranked>, b: seq<Ranked>, c: seq<Ranked>)
    requires UniqueParams(a + b + c)
    ensures UniqueParams(b) && UniqueParams(a + b)
  {
    var whole := a + b + c;
    forall i, j | 0 <= i < j < |b| && b[i].decl.param != "" ensures b[i].decl.param != b[j].decl.param {
      assert whole[|a| + i] == b[i] && whole[|a| + j] == b[j];
    }
    forall i, j | 0 <= i < j < |a + b| && (a + b)[i].decl.param != "" ensures (a + b)[i].decl.param != (a + b)[j].decl.param {
      assert whole[i] == (a + b)[i] && whole[j] == (a + b)[j];
    }
  }

  lemma ParamsLift(fs: seq<Ranked>, up: nat)
    requires UniqueParams(Lift(fs, up))
    ensures UniqueParams(fs)
  {
    forall i, j | 0 <= i < j < |fs| && fs[i].decl.param != "" ensures fs[i].decl.param != fs[j].decl.param {
      assert Lift(fs, up)[i].decl.param == fs[i].decl.param && Lift(fs, up)[j].decl.param == fs[j].decl.param;
    }
  }

  // ----- one pass

  /** Filtering at every level of embedding is filtering all fields once. */
  lemma {:induction false} ExtractIsOnePass(g: Graph, s: StructId, visited: set<StructId>)
    requires s in g && UniqueParams(Flat(g, s, visited))
    ensures Extract(g, s, visited) == Drop(Flat(g, s, visited))
    decreases Left(g, visited), |g[s].embeds| + 1
  {
    var n := |g[s].embeds|;
    var below, flat := Promoted(g, s, n, visited), FlatBelow(g, s, n, visited);
    assert Own(g, s) + flat + [] == Flat(g, s, visited);
    PromotedIsOnePass(g, s, n, visited, []);
    assert Own(g, s) + below + [] == Own(g, s) + below;
    assert Drop(Own(g, s) + below) == Drop(Flat(g, s, visited));
    var fs := Flat(g, s, visited);
    SieveParams(fs, Best(fs), {});
    DedupeNothing(Drop(fs), {});
  }

  lemma OnePassStep(own: seq<Ranked>, pre: seq<Ranked>, flatPre: seq<Ranked>, y: seq<Ranked>, c: seq<Ranked>)
    requires Drop(own + pre + (Lift(y, 1) + c)) == Drop(own + flatPre + (Lift(y, 1) + c))
    ensures Drop(own + (pre + Lift(Drop(y), 1)) + c) == Drop(own + (flatPre + Lift(y, 1)) + c)
  {
    hide Drop, Lift;
    DropLifts(y, 1);
    DropPart(own + pre, Lift(y, 1), c);
    assert own + (pre + Drop(Lift(y, 1))) + c == (own + pre) + Drop(Lift(y, 1)) + c;
    assert own + pre + (Lift(y, 1) + c) == (own + pre) + Lift(y, 1) + c;
    assert own + (flatPre + Lift(y, 1)) + c == own + flatPre + (Lift(y, 1) + c);
  }

  lemma ParamsStep(own: seq<Ranked>, flatPre: seq<Ranked>, y: seq<Ranked>, c: seq<Ranked>)
    requires UniqueParams(own + (flatPre + Lift(y, 1)) + c)
    ensures UniqueParams(y) && UniqueParams(own + flatPre + (Lift(y, 1) + c))
  {
    assert own + (flatPre + Lift(y, 1)) + c == own + flatPre + (Lift(y, 1) + c);
    assert own + (flatPre + Lift(y, 1)) + c == (own + flatPre) + Lift(y, 1) + c;
    ParamsPart(own + flatPre, Lift(y, 1), c);
    ParamsLift(y, 1);
  }

  lemma {:induction false} PromotedIsOnePass(g: Graph, s: StructId, n: nat, visited: set<StructId>, c: seq<Ranked>)
    requires s in g && n <= |g[s].embeds| && UniqueParams(Own(g, s) + FlatBelow(g, s, n, visited) + c)
    ensures Drop(Own(g, s) + Promoted(g, s, n, visited) + c) == Drop(Own(g, s) + FlatBelow(g, s, n, visited) + c)
    decreases Left(g, visited), n
  {
    if n > 0 {
      var e, own := g[s].embeds[n - 1], Own(g, s);
      var pre, flatPre := Promoted(g, s, n - 1, visited), FlatBelow(g, s, n - 1, visited);
      hide Drop, Lift, UniqueParams, Own;
      if e in g && e !in visited {
        VisitShrinks(g, visited, e);
        var y := Flat(g, e, visited + {e});
        ParamsStep(own, flatPre, y, c);
        ExtractIsOnePass(g, e, visited + {e});
        PromotedIsOnePass(g, s, n - 1, visited, Lift(y, 1) + c);
        OnePassStep(own, pre, flatPre, y, c);
      } else {
        assert pre + [] == pre && flatPre + [] == flatPre;
        PromotedIsOnePass(g, s, n - 1, visited, c);
      }
    }
  }

  // ----- where two parameters share a slot

  const OUTER: StructId := "Outer"
  const MIDDLE: StructId := "Middle"
  const LEFT: StructId := "Left"
  const INNER: StructId := "Inner"

  const FIRST := Decl("first", true, "query:page")
  const SECOND := Decl("page", true, "query:page")
  const BODY := Decl("page", true, "")

  /** Middle has two parameters of one slot; the second, dropped there, would have hidden Inner's body field. */
  const SHARED_SLOT: Graph := map[
    OUTER := Struct([], [MIDDLE, LEFT]),
    MIDDLE := Struct([FIRST, SECOND], []),
    LEFT := Struct([], [INNER]),
    INNER := Struct([BODY], [])]

  lemma SharedSlotExtracts()
    ensures Ranked(BODY, 2) in Extract(SHARED_SLOT, OUTER, {OUTER})
  {
    var g := SHARED_SLOT;
    assert OUTER[0] != MIDDLE[0] && OUTER[0] != LEFT[0] && OUTER[0] != INNER[0] && LEFT[0] != INNER[0] && MIDDLE[0] != LEFT[0] && MIDDLE[0] != INNER[0];
    var inner, left, middle := {OUTER} + {LEFT} + {INNER}, {OUTER} + {LEFT}, {OUTER} + {MIDDLE};
    var body, first, second := Ranked(BODY, 0), Ranked(FIRST, 0), Ranked(SECOND, 0);
    assert Own(g, INNER) == [body] && Promoted(g, INNER, 0, inner) == [] && [body] + [] == [body];
    OneStays(body);
    assert Extract(g, INNER, inner) == [body];
    var body1 := Ranked(BODY, 1);
    assert Lift([body], 1) == [body1] && [] + [body1] == [body1];
    assert Own(g, LEFT) == [] && Promoted(g, LEFT, 0, left) == [] && Promoted(g, LEFT, 1, left) == [body1];
    OneStays(body1);
    assert Extract(g, LEFT, left) == [body1];
    assert Own(g, MIDDLE) == [first, second] && Promoted(g, MIDDLE, 0, middle) == [] && [first, second] + [] == [first, second];
    ParametersStay(first, second);
    assert Extract(g, MIDDLE, middle) == [first];
    SharedSlotOuter(left, middle);
  }

  lemma OneStays(f: Ranked)
    ensures Dedupe(Drop([f]), {}) == [f]
  {
    assert [f][1..] == [] && Best([]) == map[];
    assert Drop([f]) == [f] + Sieve([], Best([f]), Won(f, Best([f]), {}));
    assert Drop([f]) == [f];
    assert Dedupe([f], {}) == [f] + Dedupe([], if f.decl.param != "" then {} + {f.decl.param} else {});
  }

  lemma ParametersStay(f: Ranked, h: Ranked)
    requires f.decl.param != "" && h.decl.param == f.decl.param
    ensures Drop([f, h]) == [f, h] && Dedupe([f, h], {}) == [f]
  {
    var best := Best([f, h]);
    assert [f, h][1..] == [h] && [h][1..] == [];
    var next := Won(f, best, {});
    assert Sieve([h], best, next) == [h] + Sieve([], best, Won(h, best, next));
    assert Drop([f, h]) == [f] + [h];
    assert {} + {f.decl.param} == {f.decl.param};
    assert Dedupe([h], {f.decl.param}) == Dedupe([], {f.decl.param});
  }

  lemma BothStay(f: Ranked, b: Ranked)
    requires f.decl.param != "" && b.decl.param == "" && b.decl.key != "" && f.decl.key != b.decl.key
    ensures Dedupe(Drop([f, b]), {}) == [f, b]
  {
    var best := Best([f, b]);
    assert [f, b][1..] == [b] && [b][1..] == [];
    assert Best([]) == map[] && Best([b]) == map[b.decl.key := RankOf(b)];
    assert best[b.decl.key] == RankOf(b);
    var next := Won(f, best, {});
    assert b.decl.key !in next;
    assert Sieve([b], best, next) == [b] + Sieve([], best, Won(b, best, next));
    assert Drop([f, b]) == [f] + [b];
    assert Dedupe([f, b], {}) == [f] + Dedupe([b], {} + {f.decl.param});
    assert Dedupe([b], {} + {f.decl.param}) == [b] + Dedupe([], {} + {f.decl.param});
  }

  lemma SharedSlotOuter(left: set<StructId>, middle: set<StructId>)
    requires left == {OUTER} + {LEFT} && middle == {OUTER} + {MIDDLE}
    requires Extract(SHARED_SLOT, LEFT, left) == [Ranked(BODY, 1)] && Extract(SHARED_SLOT, MIDDLE, middle) == [Ranked(FIRST, 0)]
    ensures Ranked(BODY, 2) in Extract(SHARED_SLOT, OUTER, {OUTER})
  {
    var g, f, b := SHARED_SLOT, Ranked(FIRST, 1), Ranked(BODY, 2);
    assert OUTER[0] != MIDDLE[0] && OUTER[0] != LEFT[0];
    assert Lift([Ranked(FIRST, 0)], 1) == [f] && Lift([Ranked(BODY, 1)], 1) == [b];
    assert Promoted(g, OUTER, 0, {OUTER}) == [] && [] + [f] == [f];
    assert Promoted(g, OUTER, 1, {OUTER}) == [f];
    assert Promoted(g, OUTER, 2, {OUTER}) == [f] + [b];
    assert Own(g, OUTER) == [] && [] + ([f] + [b]) == [f, b];
    assert FIRST.key[0] != BODY.key[0];
    BothStay(f, b);
  }

  lemma SharedSlotFlat()
    ensures Flat(SHARED_SLOT, OUTER, {OUTER}) == [Ranked(FIRST, 1), Ranked(SECOND, 1), Ranked(BODY, 2)]
  {
    var g := SHARED_SLOT;
    assert OUTER[0] != MIDDLE[0] && OUTER[0] != LEFT[0] && OUTER[0] != INNER[0] && LEFT[0] != INNER[0];
    var inner, left, middle := {OUTER} + {LEFT} + {INNER}, {OUTER} + {LEFT}, {OUTER} + {MIDDLE};
    var f, h, b := Ranked(FIRST, 0), Ranked(SECOND, 0), Ranked(BODY, 0);
    assert Own(g, INNER) == [b] && FlatBelow(g, INNER, 0, inner) == [] && [b] + [] == [b];
    assert Flat(g, INNER, inner) == [b] && Lift([b], 1) == [Ranked(BODY, 1)] && [] + Lift([b], 1) == Lift([b], 1);
    assert Own(g, LEFT) == [] && FlatBelow(g, LEFT, 0, left) == [] && FlatBelow(g, LEFT, 1, left) == Lift([b], 1);
    assert Flat(g, LEFT, left) == Lift([b], 1) && Lift(Lift([b], 1), 1) == [Ranked(BODY, 2)];
    assert Own(g, MIDDLE) == [f, h] && FlatBelow(g, MIDDLE, 0, middle) == [] && [f, h] + [] == [f, h];
    assert Flat(g, MIDDLE, middle) == [f, h] && Lift([f, h], 1) == [Ranked(FIRST, 1), Ranked(SECOND, 1)];
    assert FlatBelow(g, OUTER, 0, {OUTER}) == [] && FlatBelow(g, OUTER, 1, {OUTER}) == [] + Lift([f, h], 1);
    assert FlatBelow(g, OUTER, 2, {OUTER}) == [] + Lift([f, h], 1) + [Ranked(BODY, 2)];
    assert Own(g, OUTER) == [];
  }

  /** Without unique slots the two differ: level by level keeps a body field that one pass hides. */
  lemma SharedSlotDiffers()
    ensures Ranked(BODY, 2) in Extract(SHARED_SLOT, OUTER, {OUTER})
    ensures Ranked(BODY, 2) !in Drop(Flat(SHARED_SLOT, OUTER, {OUTER}))
    ensures !UniqueParams(Flat(SHARED_SLOT, OUTER, {OUTER}))
  {
    SharedSlotExtracts();
    SharedSlotFlat();
    var fs := Flat(SHARED_SLOT, OUTER, {OUTER});
    assert fs[0].decl.param == fs[1].decl.param;
    BestIsLeast(fs);
    assert fs[1] in fs;
    if Ranked(BODY, 2) in Drop(fs) {
      SieveWinners(fs, Best(fs), {}, Ranked(BODY, 2));
    }
  }

  // ----- stopping at a struct on the chain

  /** Every field within n embeddings, a struct met again unfolded again. */
  function Unfold(g: Graph, s: StructId, n: nat): seq<Ranked>
    requires s in g
    decreases n, |g[s].embeds| + 1
  {
    if n == 0 then Own(g, s) else Own(g, s) + UnfoldBelow(g, s, |g[s].embeds|, n)
  }

  function UnfoldBelow(g: Graph, s: StructId, i: nat, n: nat): seq<Ranked>
    requires s in g && i <= |g[s].embeds| && n > 0
    decreases n, i
  {
    if i == 0 then []
    else
      var e := g[s].embeds[i - 1];
      UnfoldBelow(g, s, i - 1, n) + if e in g then Lift(Unfold(g, e, n - 1), 1) else []
  }

  /** Every field has a key, and none is a parameter. */
  predicate BodyOnly(g: Graph) {
    forall s <- g, d <- g[s].own :: d.key != "" && d.param == ""
  }

  /** For every field of fs a strictly better one of its key is known. */
  ghost predicate Hidden(fs: seq<Ranked>, best: map<string, nat>) {
    forall f <- fs :: f.decl.key != "" && f.decl.param == "" && f.decl.key in best && best[f.decl.key] < RankOf(f)
  }

  lemma {:induction false} HiddenVanishes(fs: seq<Ranked>, best: map<string, nat>, kept: set<string>)
    requires Hidden(fs, best)
    ensures Sieve(fs, best, kept) == [] && Decided(fs, best, kept) == kept
    decreases |fs|
  {
    if fs != [] {
      assert fs[0] in fs;
      HiddenVanishes(fs[1..], best, kept);
    }
  }

  /** Where a struct on the chain was first met, and how far it was unfolded from there. */
  datatype Met = Met(at: nat, left: nat)

  ghost predicate KnownBelow(g: Graph, s: StructId, at: nat, n: nat, best: map<string, nat>) {
    s in g && forall f <- Lift(Unfold(g, s, n), at) :: f.decl.key in best && best[f.decl.key] <= RankOf(f)
  }

  lemma {:induction false} UnfoldGrows(g: Graph, s: StructId, n: nat, m: nat)
    requires s in g && n <= m
    ensures forall f <- Unfold(g, s, n) :: f in Unfold(g, s, m)
    decreases n, |g[s].embeds| + 1
  {
    if n > 0 {
      UnfoldBelowGrows(g, s, |g[s].embeds|, n, m);
    }
  }

  lemma {:induction false} UnfoldBelowGrows(g: Graph, s: StructId, i: nat, n: nat, m: nat)
    requires s in g && i <= |g[s].embeds| && 0 < n <= m
    ensures forall f <- UnfoldBelow(g, s, i, n) :: f in UnfoldBelow(g, s, i, m)
    decreases n, i
  {
    if i > 0 {
      var e := g[s].embeds[i - 1];
      UnfoldBelowGrows(g, s, i - 1, n, m);
      if e in g {
        UnfoldGrows(g, e, n - 1, m - 1);
        LiftIn(Unfold(g, e, n - 1), Unfold(g, e, m - 1), 1);
      }
    }
  }

  lemma LiftIn(a: seq<Ranked>, b: seq<Ranked>, up: nat)
    requires forall f <- a :: f in b
    ensures forall f <- Lift(a, up) :: f in Lift(b, up)
  {
    forall f | f in Lift(a, up) ensures f in Lift(b, up) {
      var i :| 0 <= i < |a| && Lift(a, up)[i] == f;
      assert a[i] in b;
      var j :| 0 <= j < |b| && b[j] == a[i];
      assert Lift(b, up)[j] == f;
    }
  }

  lemma {:induction false} UnfoldIsBody(g: Graph, s: StructId, n: nat)
    requires s in g && BodyOnly(g)
    ensures forall f <- Unfold(g, s, n) :: f.decl.key != "" && f.decl.param == ""
    decreases n, |g[s].embeds| + 1
  {
    forall f | f in Own(g, s) ensures f.decl.key != "" && f.decl.param == "" {
      assert f.decl in g[s].own;
    }
    if n > 0 {
      UnfoldBelowIsBody(g, s, |g[s].embeds|, n);
    }
  }

  lemma {:induction false} UnfoldBelowIsBody(g: Graph, s: StructId, i: nat, n: nat)
    requires s in g && i <= |g[s].embeds| && n > 0 && BodyOnly(g)
    ensures forall f <- UnfoldBelow(g, s, i, n) :: f.decl.key != "" && f.decl.param == ""
    decreases n, i
  {
    if i > 0 {
      var e := g[s].embeds[i - 1];
      UnfoldBelowIsBody(g, s, i - 1, n);
      if e in g {
        UnfoldIsBody(g, e, n - 1);
      }
    }
  }

  /** A struct met again stands deeper than it did, so all it adds is hidden. */
  lemma MetAgainIsHidden(g: Graph, e: StructId, first: nat, more: nat, at: nat, n: nat, best: map<string, nat>)
    requires e in g && BodyOnly(g) && first < at && n <= more && KnownBelow(g, e, first, more, best)
    ensures Hidden(Lift(Unfold(g, e, n), at), best)
  {
    UnfoldIsBody(g, e, n);
    UnfoldGrows(g, e, n, more);
    var again, before := Unfold(g, e, n), Unfold(g, e, more);
    forall f | f in Lift(again, at)
      ensures f.decl.key != "" && f.decl.param == "" && f.decl.key in best && best[f.decl.key] < RankOf(f)
    {
      var i :| 0 <= i < |again| && Lift(again, at)[i] == f;
      assert again[i] in before;
      var j :| 0 <= j < |before| && before[j] == again[i];
      assert Lift(before, first)[j] in Lift(before, first);
    }
  }

  /** The chain of structs the walk is inside of. */
  ghost predicate OnChain(g: Graph, chain: map<StructId, Met>, at: nat, n: nat, best: map<string, nat>) {
    forall v <- chain :: chain[v].at <= at && n <= chain[v].left && KnownBelow(g, v, chain[v].at, chain[v].left, best)
  }

  lemma LiftLift(fs: seq<Ranked>, a: nat, b: nat)
    ensures Lift(Lift(fs, a), b) == Lift(fs, a + b)
  {
  }

  lemma ChildKnown(g: Graph, s: StructId, i: nat, at: nat, n: nat, best: map<string, nat>)
    requires s in g && i < |g[s].embeds| && n > 0 && g[s].embeds[i] in g && KnownBelow(g, s, at, n, best)
    ensures KnownBelow(g, g[s].embeds[i], at + 1, n - 1, best)
  {
    var e := g[s].embeds[i];
    UnfoldHolds(g, s, |g[s].embeds|, i, n);
    var inner, whole := Lift(Unfold(g, e, n - 1), 1), Unfold(g, s, n);
    assert whole == Own(g, s) + UnfoldBelow(g, s, |g[s].embeds|, n);
    LiftIn(inner, whole, at);
    LiftLift(Unfold(g, e, n - 1), 1, at);
  }

  lemma {:induction false} UnfoldHolds(g: Graph, s: StructId, m: nat, i: nat, n: nat)
    requires s in g && i < m <= |g[s].embeds| && n > 0 && g[s].embeds[i] in g
    ensures forall f <- Lift(Unfold(g, g[s].embeds[i], n - 1), 1) :: f in UnfoldBelow(g, s, m, n)
    decreases m
  {
    if i < m - 1 {
      UnfoldHolds(g, s, m - 1, i, n);
    }
  }

  /** Against the best ranks of everything, the cut list and the unfolded one sieve alike. */
  lemma {:induction false} CutSievesAlike(g: Graph, s: StructId, chain: map<StructId, Met>, at: nat, n: nat, best: map<string, nat>, kept: set<string>)
    requires s in g && s in chain && BodyOnly(g) && Left(g, chain.Keys) <= n && OnChain(g, chain, at, n, best) && KnownBelow(g, s, at, n, best)
    ensures Sieve(Lift(Flat(g, s, chain.Keys), at), best, kept) == Sieve(Lift(Unfold(g, s, n), at), best, kept)
    ensures Decided(Lift(Flat(g, s, chain.Keys), at), best, kept) == Decided(Lift(Unfold(g, s, n), at), best, kept)
    decreases n, |g[s].embeds| + 1
  {
    var m, own := |g[s].embeds|, Lift(Own(g, s), at);
    LiftPlus(Own(g, s), FlatBelow(g, s, m, chain.Keys), at);
    SieveSplits(own, Lift(FlatBelow(g, s, m, chain.Keys), at), best, kept);
    if n > 0 {
      LiftPlus(Own(g, s), UnfoldBelow(g, s, m, n), at);
      SieveSplits(own, Lift(UnfoldBelow(g, s, m, n), at), best, kept);
      CutBelowSievesAlike(g, s, m, chain, at, n, best, Decided(own, best, kept));
    } else {
      NothingLeft(g, s, m, chain.Keys);
    }
  }

  lemma {:induction false} NothingLeft(g: Graph, s: StructId, i: nat, visited: set<StructId>)
    requires s in g && i <= |g[s].embeds| && Left(g, visited) == 0
    ensures FlatBelow(g, s, i, visited) == []
    decreases i
  {
    if i > 0 {
      var e := g[s].embeds[i - 1];
      if e in g && e !in visited {
        VisitShrinks(g, visited, e);
      }
      NothingLeft(g, s, i - 1, visited);
    }
  }

  lemma {:induction false} CutBelowSievesAlike(g: Graph, s: StructId, i: nat, chain: map<StructId, Met>, at: nat, n: nat, best: map<string, nat>, kept: set<string>)
    requires s in g && i <= |g[s].embeds| && n > 0 && BodyOnly(g) && Left(g, chain.Keys) <= n
    requires OnChain(g, chain, at, n, best) && KnownBelow(g, s, at, n, best)
    ensures Sieve(Lift(FlatBelow(g, s, i, chain.Keys), at), best, kept) == Sieve(Lift(UnfoldBelow(g, s, i, n), at), best, kept)
    ensures Decided(Lift(FlatBelow(g, s, i, chain.Keys), at), best, kept) == Decided(Lift(UnfoldBelow(g, s, i, n), at), best, kept)
    decreases n, i
  {
    hide Sieve, Decided, Lift, KnownBelow, OnChain, Unfold, Flat, Left, BodyOnly;
    if i > 0 {
      var e := g[s].embeds[i - 1];
      var flat, full := FlatBelow(g, s, i - 1, chain.Keys), UnfoldBelow(g, s, i - 1, n);
      CutBelowSievesAlike(g, s, i - 1, chain, at, n, best, kept);
      if e !in g {
        assert flat + [] == flat && full + [] == full;
      } else if e in chain {
        assert flat + [] == flat;
        ChainKnows(g, chain, at, n, best, e);
        MetAgainIsHidden(g, e, chain[e].at, chain[e].left, at + 1, n - 1, best);
        SkipSieves(flat, full, Unfold(g, e, n - 1), at, best, kept);
      } else {
        CutChild(g, s, i - 1, chain, at, n, best);
        ChildFits(g, chain.Keys, e, n);
        var more := chain[e := Met(at + 1, n - 1)];
        assert more.Keys == chain.Keys + {e};
        CutSievesAlike(g, e, more, at + 1, n - 1, best, Decided(Lift(full, at), best, kept));
        JoinSieves(flat, full, Flat(g, e, chain.Keys + {e}), Unfold(g, e, n - 1), at, best, kept);
      }
    }
  }

  lemma ChainKnows(g: Graph, chain: map<StructId, Met>, at: nat, n: nat, best: map<string, nat>, e: StructId)
    requires OnChain(g, chain, at, n, best) && e in chain
    ensures chain[e].at <= at && n <= chain[e].left && KnownBelow(g, e, chain[e].at, chain[e].left, best)
  {
  }

  lemma ChildFits(g: Graph, visited: set<StructId>, e: StructId, n: nat)
    requires e in g && e !in visited && Left(g, visited) <= n
    ensures Left(g, visited + {e}) < Left(g, visited) && Left(g, visited + {e}) <= n - 1
  {
    VisitShrinks(g, visited, e);
  }

  /** A hidden block adds nothing. */
  lemma SkipSieves(flat: seq<Ranked>, full: seq<Ranked>, block: seq<Ranked>, at: nat, best: map<string, nat>, kept: set<string>)
    requires Sieve(Lift(flat, at), best, kept) == Sieve(Lift(full, at), best, kept)
    requires Decided(Lift(flat, at), best, kept) == Decided(Lift(full, at), best, kept)
    requires Hidden(Lift(block, at + 1), best)
    ensures Sieve(Lift(flat, at), best, kept) == Sieve(Lift(full + Lift(block, 1), at), best, kept)
    ensures Decided(Lift(flat, at), best, kept) == Decided(Lift(full + Lift(block, 1), at), best, kept)
  {
    var below := Lift(Lift(block, 1), at);
    LiftLift(block, 1, at);
    LiftPlus(full, Lift(block, 1), at);
    SieveSplits(Lift(full, at), below, best, kept);
    HiddenVanishes(below, best, Decided(Lift(full, at), best, kept));
  }

  /** Blocks that sieve alike may stand for each other. */
  lemma JoinSieves(flat: seq<Ranked>, full: seq<Ranked>, cut: seq<Ranked>, block: seq<Ranked>, at: nat, best: map<string, nat>, kept: set<string>)
    requires Sieve(Lift(flat, at), best, kept) == Sieve(Lift(full, at), best, kept)
    requires Decided(Lift(flat, at), best, kept) == Decided(Lift(full, at), best, kept)
    requires var next := Decided(Lift(full, at), best, kept);
             && Sieve(Lift(cut, at + 1), best, next) == Sieve(Lift(block, at + 1), best, next)
             && Decided(Lift(cut, at + 1), best, next) == Decided(Lift(block, at + 1), best, next)
    ensures Sieve(Lift(flat + Lift(cut, 1), at), best, kept) == Sieve(Lift(full + Lift(block, 1), at), best, kept)
    ensures Decided(Lift(flat + Lift(cut, 1), at), best, kept) == Decided(Lift(full + Lift(block, 1), at), best, kept)
  {
    LiftLift(cut, 1, at);
    LiftLift(block, 1, at);
    LiftPlus(flat, Lift(cut, 1), at);
    LiftPlus(full, Lift(block, 1), at);
    SieveSplits(Lift(flat, at), Lift(cut, at + 1), best, kept);
    SieveSplits(Lift(full, at), Lift(block, at + 1), best, kept);
  }

  lemma CutChild(g: Graph, s: StructId, i: nat, chain: map<StructId, Met>, at: nat, n: nat, best: map<string, nat>)
    requires s in g && i < |g[s].embeds| && n > 0 && g[s].embeds[i] in g && OnChain(g, chain, at, n, best) && KnownBelow(g, s, at, n, best)
    ensures OnChain(g, chain[g[s].embeds[i] := Met(at + 1, n - 1)], at + 1, n - 1, best)
    ensures KnownBelow(g, g[s].embeds[i], at + 1, n - 1, best)
  {
    ChildKnown(g, s, i, at, n, best);
  }

  lemma {:induction false} FlatUnfolds(g: Graph, s: StructId, visited: set<StructId>, n: nat)
    requires s in g && Left(g, visited) <= n
    ensures forall f <- Flat(g, s, visited) :: f in Unfold(g, s, n)
    decreases n, |g[s].embeds| + 1
  {
    if n == 0 {
      NothingLeft(g, s, |g[s].embeds|, visited);
    } else {
      FlatBelowUnfolds(g, s, |g[s].embeds|, visited, n);
    }
  }

  lemma {:induction false} FlatBelowUnfolds(g: Graph, s: StructId, i: nat, visited: set<StructId>, n: nat)
    requires s in g && i <= |g[s].embeds| && n > 0 && Left(g, visited) <= n
    ensures forall f <- FlatBelow(g, s, i, visited) :: f in UnfoldBelow(g, s, i, n)
    decreases n, i
  {
    if i > 0 {
      var e := g[s].embeds[i - 1];
      FlatBelowUnfolds(g, s, i - 1, visited, n);
      if e in g && e !in visited {
        ChildFits(g, visited, e, n);
        FlatUnfolds(g, e, visited + {e}, n - 1);
        LiftIn(Flat(g, e, visited + {e}), Unfold(g, e, n - 1), 1);
      }
    }
  }

  lemma RootKnown(g: Graph, s: StructId, n: nat)
    requires s in g && BodyOnly(g)
    ensures KnownBelow(g, s, 0, n, Best(Unfold(g, s, n)))
    ensures OnChain(g, map[s := Met(0, n)], 0, n, Best(Unfold(g, s, n)))
  {
    UnfoldIsBody(g, s, n);
    BestIsLeast(Unfold(g, s, n));
    assert Lift(Unfold(g, s, n), 0) == Unfold(g, s, n);
  }

  /** Stopping at a struct already on the chain loses no winner, however far it would have been unfolded. */
  lemma CutLosesNothing(g: Graph, s: StructId, n: nat)
    requires s in g && BodyOnly(g) && |g| <= n
    ensures Drop(Flat(g, s, {s})) == Drop(Unfold(g, s, n))
  {
    var full, cut := Unfold(g, s, n), Flat(g, s, {s});
    var chain := map[s := Met(0, n)];
    assert chain.Keys == {s} && Lift(full, 0) == full && Lift(cut, 0) == cut;
    RootKnown(g, s, n);
    assert Left(g, {s}) <= n by {
      VisitShrinks(g, {}, s);
      assert {} + {s} == {s} && g.Keys - {} == g.Keys;
    }
    hide Unfold, Flat, Sieve, Best;
    CutSievesAlike(g, s, chain, 0, n, Best(full), {});
    FlatUnfolds(g, s, {s}, n);
    CutBest(cut, full);
  }

  /** A part that sieves like the whole, against its best ranks, has the same best ranks. */
  lemma CutBest(cut: seq<Ranked>, full: seq<Ranked>)
    requires Sieve(cut, Best(full), {}) == Sieve(full, Best(full), {}) && forall f <- cut :: f in full
    ensures Drop(cut) == Drop(full)
  {
    var best := Best(full);
    BestIsLeast(full);
    BestIsLeast(cut);
    SieveHolds(full, best, {});
    SieveHolds(cut, best, {});
    hide Sieve, Best;
    forall k | k in best ensures Holds(cut, k, best[k]) {
      assert Holds(full, k, best[k]);
      var f :| f in Sieve(full, best, {}) && f.decl.key == k && RankOf(f) == best[k];
      assert f in cut;
    }
    forall k | k in Best(cut) ensures Holds(full, k, Best(cut)[k]) {
      var f :| f in cut && f.decl.key == k && RankOf(f) == Best(cut)[k];
      assert f in full;
    }
    SameBest(cut, full);
  }

  /** A struct of body fields: the extraction is the dominance rule over the whole unfolding. */
  lemma ExtractionIsDominance(g: Graph, s: StructId, n: nat)
    requires s in g && BodyOnly(g) && |g| <= n
    ensures Extract(g, s, {s}) == Drop(Unfold(g, s, n))
  {
    assert Left(g, {s}) <= n by {
      VisitShrinks(g, {}, s);
      assert {} + {s} == {s} && g.Keys - {} == g.Keys;
    }
    FlatUnfolds(g, s, {s}, n);
    UnfoldIsBody(g, s, n);
    var fs := Flat(g, s, {s});
    assert forall i | 0 <= i < |fs| :: fs[i] in fs;
    ExtractIsOnePass(g, s, {s});
    CutLosesNothing(g, s, n);
  }
}
