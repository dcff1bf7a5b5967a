/**
 When dropping an embedded struct's duplicate parameters, before its fields are
 promoted, changes nothing: exactly when none dropped was the only field of its
 key's best rank.
 */
module EmbedSlots {
  import opened Embed
  import opened EmbedTree

  /** What a list of fields amounts to in the end. */
  function Final(fs: seq<Ranked>): seq<Ranked> {
    Dedupe(Drop(fs), {})
  }

  function FinalAround(own: seq<Ranked>, promoted: seq<Ranked>, more: seq<Ranked>): seq<Ranked> {
    Final(own + promoted + more)
  }

  /** Every best rank survives the dropping of duplicate parameters. */
  predicate Harmless(fs: seq<Ranked>) {
    Best(Dedupe(fs, {})) == Best(fs)
  }

  predicate IsSieved(fs: seq<Ranked>) {
    Drop(fs) == fs
  }

  lemma DropIsSieved(fs: seq<Ranked>)
    ensures IsSieved(Drop(fs))
  {
    assert [] + Drop(fs) + [] == Drop(fs) && [] + fs + [] == fs;
    DropPart([], fs, []);
  }

  // ----- parameters pass every filter

  function SlotOf(f: Ranked): set<string> {
    if f.decl.param != "" then {f.decl.param} else {}
  }

  function Slots(fs: seq<Ranked>): set<string> {
    set f, p | f in fs && p in SlotOf(f) :: p
  }

  lemma SlotsOfMore(f: Ranked, fs: seq<Ranked>)
    ensures Slots([f] + fs) == SlotOf(f) + Slots(fs)
  {
    assert forall g :: g in [f] + fs <==> g == f || g in fs;
  }

  lemma {:induction false} DedupeSplits(a: seq<Ranked>, b: seq<Ranked>, seen: set<string>)
    ensures Dedupe(a + b, seen) == Dedupe(a, seen) + Dedupe(b, seen + Slots(a))
    decreases |a|
  {
    if a == [] {
      assert a + b == b && seen + Slots(a) == seen;
    } else {
      hide Slots;
      var f, rest := a[0], a[1..];
      assert (a + b)[1..] == rest + b && a == [f] + rest;
      SlotsOfMore(f, rest);
      assert seen + Slots(a) == (seen + SlotOf(f)) + Slots(rest);
      DedupeSplits(rest, b, seen + SlotOf(f));
      SeenBefore(f, seen);
    }
  }

  lemma SeenBefore(f: Ranked, seen: set<string>)
    ensures f.decl.param == "" || f.decl.param in seen ==> seen + SlotOf(f) == seen
  {
  }

  lemma {:induction false} DedupeKeepsSlots(fs: seq<Ranked>, seen: set<string>)
    ensures seen + Slots(Dedupe(fs, seen)) == seen + Slots(fs)
    ensures forall f <- Dedupe(fs, seen) :: f in fs
    decreases |fs|
  {
    hide Slots;
    if fs != [] {
      var f, rest := fs[0], fs[1..];
      var next := seen + SlotOf(f);
      assert fs == [f] + rest;
      SlotsOfMore(f, rest);
      SlotsOfMore(f, Dedupe(rest, next));
      SeenBefore(f, seen);
      DedupeKeepsSlots(rest, next);
      assert seen + Slots(fs) == next + Slots(rest);
    }
  }

  lemma {:induction false} SieveKeepsSlots(fs: seq<Ranked>, best: map<string, nat>, kept: set<string>)
    ensures Slots(Sieve(fs, best, kept)) == Slots(fs)
    decreases |fs|
  {
    if fs != [] {
      hide Slots;
      var f, rest := fs[0], fs[1..];
      var out := Sieve(rest, best, Won(f, best, kept));
      SieveKeepsSlots(rest, best, Won(f, best, kept));
      assert fs == [f] + rest;
      SlotsOfMore(f, rest);
      SlotsOfMore(f, out);
      assert [] + out == out;
    }
  }

  // ----- which keys are decided

  lemma {:induction false} DecidedIs(fs: seq<Ranked>, best: map<string, nat>, kept: set<string>)
    ensures Decided(fs, best, kept) == kept + set k | k in best && k != "" && Holds(fs, k, best[k])
    decreases |fs|
  {
    if fs != [] {
      var f, rest := fs[0], fs[1..];
      DecidedIs(rest, best, Won(f, best, kept));
      forall k | k in best ensures Holds(fs, k, best[k]) <==> Holds(rest, k, best[k]) || (f.decl.key == k && RankOf(f) == best[k]) {
        assert forall g <- fs :: g == f || g in rest;
        assert f in fs && forall g <- rest :: g in fs;
      }
    }
  }

  // ----- dropping duplicates first

  lemma SievedHead(fs: seq<Ranked>, best: map<string, nat>, kept: set<string>)
    requires fs != [] && Sieve(fs, best, kept) == fs
    ensures Stays(fs[0], best, kept) && Sieve(fs[1..], best, Won(fs[0], best, kept)) == fs[1..]
  {
    SieveShorter(fs[1..], best, Won(fs[0], best, kept));
  }

  lemma {:induction false} SieveShorter(fs: seq<Ranked>, best: map<string, nat>, kept: set<string>)
    ensures |Sieve(fs, best, kept)| <= |fs|
    decreases |fs|
  {
    if fs != [] {
      SieveShorter(fs[1..], best, Won(fs[0], best, kept));
    }
  }

  /** Two runs over a sieved list, one without the parameters seen before, end alike. */
  lemma {:induction false} RunsAlike(fs: seq<Ranked>, own: map<string, nat>, ownKept: set<string>, best: map<string, nat>,
                                     kept: set<string>, less: set<string>, inner: set<string>, seen: set<string>)
    requires Sieve(fs, own, ownKept) == fs
    requires forall f <- fs :: f.decl.key != "" ==> f.decl.key in own && own[f.decl.key] <= RankOf(f)
    requires NoBetter(best, own) && inner <= seen
    requires less <= kept && kept - less <= ownKept
    ensures Dedupe(Sieve(Dedupe(fs, inner), best, less), seen) == Dedupe(Sieve(fs, best, kept), seen)
    decreases |fs|
  {
    if fs != [] {
      var f, rest := fs[0], fs[1..];
      var p, after := f.decl.param, seen + SlotOf(f);
      SievedHead(fs, own, ownKept);
      SeenBefore(f, seen);
      SeenBefore(f, inner);
      assert f in fs && forall g <- rest :: g in fs;
      var ownNext, next := Won(f, own, ownKept), Won(f, best, kept);
      if p != "" && p in inner {
        RunsAlike(rest, own, ownNext, best, next, less, inner, seen);
        assert Sieve(fs, best, kept) == [f] + Sieve(rest, best, next);
      } else {
        var deeper := inner + SlotOf(f);
        var lessNext := Won(f, best, less);
        var thin := Dedupe(fs, inner);
        assert thin[0] == f && thin[1..] == Dedupe(rest, deeper);
        SameStay(f, own, ownKept, best, kept, less);
        RunsAlike(rest, own, ownNext, best, next, lessNext, deeper, after);
        HeadThen(f, Sieve(rest, best, next), seen);
        HeadThen(f, Sieve(Dedupe(rest, deeper), best, lessNext), seen);
      }
    }
  }

  lemma HeadThen(f: Ranked, fs: seq<Ranked>, seen: set<string>)
    ensures var p := f.decl.param;
            Dedupe([f] + fs, seen) == (if p != "" && p in seen then [] else [f]) + Dedupe(fs, seen + SlotOf(f))
    ensures [] + fs == fs
  {
    assert ([f] + fs)[1..] == fs;
    SeenBefore(f, seen);
    assert [] + Dedupe(fs, seen) == Dedupe(fs, seen);
  }

  /** What a sieved list keeps stays in both runs or in neither. */
  lemma SameStay(f: Ranked, own: map<string, nat>, ownKept: set<string>, best: map<string, nat>, kept: set<string>, less: set<string>)
    requires Stays(f, own, ownKept) && (f.decl.key != "" ==> f.decl.key in own && own[f.decl.key] <= RankOf(f))
    requires NoBetter(best, own) && less <= kept && kept - less <= ownKept
    ensures Stays(f, best, less) == Stays(f, best, kept)
    ensures Won(f, best, less) <= Won(f, best, kept)
    ensures Won(f, best, kept) - Won(f, best, less) <= Won(f, own, ownKept)
  {
  }

  lemma BestOfMore(a: seq<Ranked>, b: seq<Ranked>, thin: seq<Ranked>, c: seq<Ranked>)
    requires Best(thin) == Best(b)
    ensures Best(a + thin + c) == Best(a + b + c)
  {
    forall x: seq<Ranked>, y: seq<Ranked> | (x == thin && y == b) || (x == b && y == thin)
      ensures forall k <- Best(a + x + c) :: Holds(a + y + c, k, Best(a + x + c)[k])
    {
      BestFrom(a, x, y, c);
    }
    SameBest(a + thin + c, a + b + c);
  }

  lemma BestFrom(a: seq<Ranked>, x: seq<Ranked>, y: seq<Ranked>, c: seq<Ranked>)
    requires Best(x) == Best(y)
    ensures forall k <- Best(a + x + c) :: Holds(a + y + c, k, Best(a + x + c)[k])
  {
    var whole, other := a + x + c, a + y + c;
    BestIsLeast(whole);
    BestIsLeast(x);
    BestIsLeast(y);
    hide Best;
    forall k | k in Best(whole) ensures Holds(other, k, Best(whole)[k]) {
      var f :| f in whole && f.decl.key == k && RankOf(f) == Best(whole)[k];
      if f in a || f in c {
        assert f in other;
      } else {
        assert f in x && Holds(x, k, Best(x)[k]);
        var h :| h in x && h.decl.key == k && RankOf(h) == Best(x)[k];
        assert h in whole;
        var g :| g in y && g.decl.key == k && RankOf(g) == Best(y)[k];
        assert g in other;
      }
    }
  }

  lemma DedupePart(a: seq<Ranked>, fs: seq<Ranked>, c: seq<Ranked>)
    requires IsSieved(fs) && Harmless(fs)
    ensures Final(a + Dedupe(fs, {}) + c) == Final(a + fs + c)
  {
    var thin, best := Dedupe(fs, {}), Best(a + fs + c);
    BestOfMore(a, fs, thin, c);
    PartBest(a, fs, c);
    BestIsLeast(fs);
    BestIsLeast(thin);
    var kept := Decided(a, best, {});
    SieveInThree(a, fs, c, best);
    SieveInThree(a, thin, c, best);
    SieveKeepsSlots(fs, best, kept);
    SieveKeepsSlots(thin, best, kept);
    DedupeKeepsSlots(fs, {});
    var seen := Slots(Sieve(a, best, {}));
    RunsAlike(fs, Best(fs), {}, best, kept, kept, {}, seen);
    SameDecided(fs, thin, best, kept);
    DedupeInThree(Sieve(a, best, {}), Sieve(fs, best, kept), Sieve(c, best, Decided(fs, best, kept)));
    DedupeInThree(Sieve(a, best, {}), Sieve(thin, best, kept), Sieve(c, best, Decided(thin, best, kept)));
    assert {} + Slots(thin) == {} + Slots(fs);
  }

  lemma SieveInThree(a: seq<Ranked>, b: seq<Ranked>, c: seq<Ranked>, best: map<string, nat>)
    ensures var kept := Decided(a, best, {});
            Sieve(a + b + c, best, {}) == Sieve(a, best, {}) + Sieve(b, best, kept) + Sieve(c, best, Decided(b, best, kept))
  {
    SieveSplits(a + b, c, best, {});
    SieveSplits(a, b, best, {});
  }

  lemma DedupeInThree(a: seq<Ranked>, b: seq<Ranked>, c: seq<Ranked>)
    ensures Dedupe(a + b + c, {}) == Dedupe(a, {}) + Dedupe(b, Slots(a)) + Dedupe(c, Slots(a) + Slots(b))
  {
    DedupeSplits(a + b, c, {});
    DedupeSplits(a, b, {});
    assert {} + Slots(a) == Slots(a);
    assert {} + Slots(a + b) == Slots(a) + Slots(b);
  }

  lemma SameDecided(fs: seq<Ranked>, thin: seq<Ranked>, best: map<string, nat>, kept: set<string>)
    requires Best(fs) == Best(thin) && NoBetter(best, Best(fs))
    ensures Decided(fs, best, kept) == Decided(thin, best, kept)
  {
    DecidedIs(fs, best, kept);
    DecidedIs(thin, best, kept);
    BestIsLeast(fs);
    BestIsLeast(thin);
    forall k | k in best && k != "" ensures Holds(fs, k, best[k]) <==> Holds(thin, k, best[k]) {
      if Holds(fs, k, best[k]) {
        HoldsAlike(fs, thin, best, k);
      }
      if Holds(thin, k, best[k]) {
        HoldsAlike(thin, fs, best, k);
      }
    }
  }

  lemma HoldsAlike(x: seq<Ranked>, y: seq<Ranked>, best: map<string, nat>, k: string)
    requires Best(x) == Best(y) && NoBetter(best, Best(x)) && k in best && k != "" && Holds(x, k, best[k])
    ensures Holds(y, k, best[k])
  {
    BestIsLeast(x);
    BestIsLeast(y);
    var f :| f in x && f.decl.key == k && RankOf(f) == best[k];
    assert Best(y)[k] == best[k] && Holds(y, k, Best(y)[k]);
  }

  // ----- and where it does change something

  /** A body field of a key, of any rank. */
  function BodyField(k: string, r: nat): (f: Ranked)
    ensures RankOf(f) == r && f.decl.key == k && f.decl.param == ""
  {
    Ranked(Decl(k, r % 2 == 0, ""), r / 2)
  }

  /** A key whose best rank is lost. */
  lemma LostRank(fs: seq<Ranked>) returns (k: string)
    requires !Harmless(fs)
    ensures var thin := Best(Dedupe(fs, {})); k in Best(fs) && (k in thin ==> thin[k] > Best(fs)[k])
  {
    var thin := Dedupe(fs, {});
    DedupeKeepsSlots(fs, {});
    BestIsLeast(fs);
    BestIsLeast(thin);
    hide Best;
    forall x | x in Best(thin) ensures x in Best(fs) && Best(fs)[x] <= Best(thin)[x] {
      var f :| f in thin && f.decl.key == x && RankOf(f) == Best(thin)[x];
      assert f in fs;
    }
    k :| k in Best(fs) && !(k in Best(thin) && Best(thin)[k] == Best(fs)[k]);
  }

  lemma FirstStays(f: Ranked, fs: seq<Ranked>)
    requires f.decl.key != "" && f.decl.param == "" && (f.decl.key in Best(fs) ==> RankOf(f) <= Best(fs)[f.decl.key])
    ensures f in Final([f] + fs)
  {
    var all := [f] + fs;
    assert all[1..] == fs;
    assert Drop(all)[0] == f;
    HeadThen(f, Drop(all)[1..], {});
    assert Drop(all) == [f] + Drop(all)[1..];
  }

  lemma BeatenGoes(f: Ranked, fs: seq<Ranked>)
    requires f.decl.key != "" && f.decl.param == "" && f.decl.key in Best(fs) && Best(fs)[f.decl.key] < RankOf(f)
    ensures f !in Final([f] + fs)
  {
    var all := [f] + fs;
    assert all[1..] == fs && Best(all) == Best(fs);
    DedupeKeepsSlots(Drop(all), {});
    if f in Final(all) {
      SieveWinners(all, Best(all), {}, f);
    }
  }

  /** Some body field before fs comes to stay. */
  lemma LostRankShows(fs: seq<Ranked>) returns (f: Ranked)
    requires !Harmless(fs)
    ensures f in Final([f] + Dedupe(fs, {}) + []) && f !in Final([f] + fs + [])
  {
    var thin := Dedupe(fs, {});
    var k := LostRank(fs);
    BestIsLeast(fs);
    f := BodyField(k, Best(fs)[k] + 1);
    FirstStays(f, thin);
    BeatenGoes(f, fs);
    assert [f] + thin + [] == [f] + thin && [f] + fs + [] == [f] + fs;
  }

  /**
   In every struct that embeds it, dropping a struct's duplicate parameters
   before its fields are promoted changes nothing, if and only if every best
   rank survives that.
   */
  lemma DedupeFirstIffHarmless(fs: seq<Ranked>)
    requires IsSieved(fs)
    ensures (forall a: seq<Ranked>, c: seq<Ranked> :: Final(a + Dedupe(fs, {}) + c) == Final(a + fs + c)) <==> Harmless(fs)
  {
    if Harmless(fs) {
      forall a: seq<Ranked>, c: seq<Ranked> ensures Final(a + Dedupe(fs, {}) + c) == Final(a + fs + c) {
        DedupePart(a, fs, c);
      }
    } else {
      var f := LostRankShows(fs);
      assert Final([f] + Dedupe(fs, {}) + []) != Final([f] + fs + []);
    }
  }

  // ----- the whole extraction

  /** No struct embedded in s loses a best rank with its duplicate parameters. */
  predicate SlotsHarmless(g: Graph, s: StructId, visited: set<StructId>)
    requires s in g
    decreases Left(g, visited)
  {
    forall e <- g[s].embeds | e in g && e !in visited ::
      VisitShrinks(g, visited, e);
      Harmless(Drop(Flat(g, e, visited + {e}))) && SlotsHarmless(g, e, visited + {e})
  }

  lemma {:induction false} DedupeLifts(fs: seq<Ranked>, seen: set<string>)
    ensures Dedupe(Lift(fs, 1), seen) == Lift(Dedupe(fs, seen), 1)
    decreases |fs|
  {
    if fs != [] {
      var p := fs[0].decl.param;
      assert Lift(fs, 1)[1..] == Lift(fs[1..], 1);
      DedupeLifts(fs[1..], if p != "" then seen + {p} else seen);
      DedupeLifts(fs[1..], seen);
    }
  }

  lemma HarmlessLifts(fs: seq<Ranked>)
    requires Harmless(fs)
    ensures Harmless(Lift(fs, 1))
  {
    DedupeLifts(fs, {});
    BestLifts(fs, 1);
    BestLifts(Dedupe(fs, {}), 1);
  }

  /** Filtering and dropping duplicates at every level of embedding is doing both once, on all fields. */
  lemma {:induction false} ExtractIsFinal(g: Graph, s: StructId, visited: set<StructId>)
    requires s in g && SlotsHarmless(g, s, visited)
    ensures Extract(g, s, visited) == Final(Flat(g, s, visited))
    decreases Left(g, visited), |g[s].embeds| + 1
  {
    var n := |g[s].embeds|;
    var below, flat := Promoted(g, s, n, visited), FlatBelow(g, s, n, visited);
    PromotedIsFinal(g, s, n, visited, []);
    assert Own(g, s) + below + [] == Own(g, s) + below && Own(g, s) + flat + [] == Own(g, s) + flat;
  }

  /** What the last of n embedded structs adds, filtered and unfiltered. */
  lemma LastPromoted(g: Graph, s: StructId, n: nat, visited: set<StructId>)
    requires s in g && n <= |g[s].embeds|
    ensures n == 0 ==> Promoted(g, s, n, visited) == [] && FlatBelow(g, s, n, visited) == []
    ensures n > 0 ==>
              var e, pre, flatPre := g[s].embeds[n - 1], Promoted(g, s, n - 1, visited), FlatBelow(g, s, n - 1, visited);
              if e in g && e !in visited then
                && Promoted(g, s, n, visited) == pre + Lift(Extract(g, e, visited + {e}), 1)
                && FlatBelow(g, s, n, visited) == flatPre + Lift(Flat(g, e, visited + {e}), 1)
              else Promoted(g, s, n, visited) == pre && FlatBelow(g, s, n, visited) == flatPre
  {
    hide Lift, Extract, Flat;
    if n > 0 && g[s].embeds[n - 1] in g && g[s].embeds[n - 1] !in visited {
      VisitShrinks(g, visited, g[s].embeds[n - 1]);
    }
  }

  lemma HarmlessAt(g: Graph, s: StructId, i: nat, visited: set<StructId>)
    requires s in g && i < |g[s].embeds| && SlotsHarmless(g, s, visited)
    requires g[s].embeds[i] in g && g[s].embeds[i] !in visited
    ensures var e := g[s].embeds[i];
            Left(g, visited + {e}) < Left(g, visited) && Harmless(Drop(Flat(g, e, visited + {e}))) && SlotsHarmless(g, e, visited + {e})
  {
    hide Harmless, Drop, Flat;
    VisitShrinks(g, visited, g[s].embeds[i]);
  }

  lemma {:induction false} PromotedIsFinal(g: Graph, s: StructId, n: nat, visited: set<StructId>, c: seq<Ranked>)
    requires s in g && n <= |g[s].embeds| && SlotsHarmless(g, s, visited)
    ensures FinalAround(Own(g, s), Promoted(g, s, n, visited), c) == FinalAround(Own(g, s), FlatBelow(g, s, n, visited), c)
    decreases Left(g, visited), n
  {
    hide Drop, Lift, Own, Final, FinalAround, Harmless, Dedupe, Extract, Flat, SlotsHarmless, Promoted, FlatBelow;
    LastPromoted(g, s, n, visited);
    if n > 0 {
      var e := g[s].embeds[n - 1];
      if e in g && e !in visited {
        HarmlessAt(g, s, n - 1, visited);
        var y := Flat(g, e, visited + {e});
        ExtractIsFinal(g, e, visited + {e});
        PromotedIsFinal(g, s, n - 1, visited, Lift(y, 1) + c);
        FinalStep(Own(g, s), Promoted(g, s, n - 1, visited), FlatBelow(g, s, n - 1, visited), y, c);
      } else {
        PromotedIsFinal(g, s, n - 1, visited, c);
      }
    }
  }

  lemma FinalStep(own: seq<Ranked>, pre: seq<Ranked>, flatPre: seq<Ranked>, y: seq<Ranked>, c: seq<Ranked>)
    requires Harmless(Drop(y))
    requires FinalAround(own, pre, Lift(y, 1) + c) == FinalAround(own, flatPre, Lift(y, 1) + c)
    ensures FinalAround(own, pre + Lift(Final(y), 1), c) == FinalAround(own, flatPre + Lift(y, 1), c)
  {
    hide Drop, Lift, Final, Harmless, Dedupe, IsSieved;
    var lifted := Lift(y, 1);
    FinalLifts(y);
    FinalPart(own + pre, lifted, c);
    assert own + (pre + Final(lifted)) + c == (own + pre) + Final(lifted) + c;
    assert own + pre + (lifted + c) == (own + pre) + lifted + c;
    assert own + (flatPre + lifted) + c == own + flatPre + (lifted + c);
  }

  lemma FinalLifts(fs: seq<Ranked>)
    requires Harmless(Drop(fs))
    ensures Final(Lift(fs, 1)) == Lift(Final(fs), 1) && Harmless(Drop(Lift(fs, 1)))
  {
    hide Drop, Lift, Dedupe, Harmless;
    DropLifts(fs, 1);
    HarmlessLifts(Drop(fs));
    DedupeLifts(Drop(fs), {});
  }

  lemma FinalPart(a: seq<Ranked>, fs: seq<Ranked>, c: seq<Ranked>)
    requires Harmless(Drop(fs))
    ensures Final(a + Final(fs) + c) == Final(a + fs + c)
  {
    DropIsSieved(fs);
    DedupePart(a, Drop(fs), c);
    DropPart(a, fs, c);
  }
}
