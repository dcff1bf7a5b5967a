/**
 encoding/json's dominance rule over embedded structs: filtering each embedded
 struct's fields before they are promoted is one pass over all of them, and
 stopping at a struct already on the chain loses no winner.
 */
module Embed {
  import opened Wrappers

  /** A field: its key in the document ("": none), whether a tag gave it, and its parameter slot ("": none). */
  datatype Decl = Decl(key: string, tagged: bool, param: string)

  datatype Ranked = Ranked(decl: Decl, depth: nat)

  // ----- the rule

  /** Depth decides; a tag only between fields equally deep. */
  predicate Outranks(f: Ranked, o: Ranked) {
    if f.depth != o.depth then f.depth < o.depth else f.decl.tagged && !o.decl.tagged
  }

  function RankOf(f: Ranked): nat {
    2 * f.depth + if f.decl.tagged then 0 else 1
  }

  lemma RankIsOrder(f: Ranked, o: Ranked)
    ensures Outranks(f, o) <==> RankOf(f) < RankOf(o)
  {
  }

  /** For every key the best rank it occurs at. */
  function Best(fs: seq<Ranked>): map<string, nat>
    decreases |fs|
  {
    if fs == [] then map[]
    else
      var best, k, r := Best(fs[1..]), fs[0].decl.key, RankOf(fs[0]);
      if k == "" || (k in best && best[k] <= r) then best else best[k := r]
  }

  predicate Wins(f: Ranked, best: map<string, nat>, kept: set<string>) {
    f.decl.key != "" && f.decl.key !in kept && f.decl.key in best && RankOf(f) == best[f.decl.key]
  }

  predicate Stays(f: Ranked, best: map<string, nat>, kept: set<string>) {
    f.decl.key == "" || f.decl.param != "" || Wins(f, best, kept)
  }

  function Won(f: Ranked, best: map<string, nat>, kept: set<string>): set<string> {
    if Wins(f, best, kept) then kept + {f.decl.key} else kept
  }

  /** One pass: keyless fields and parameters stay, and of each key its first winner. */
  function Sieve(fs: seq<Ranked>, best: map<string, nat>, kept: set<string>): seq<Ranked>
    decreases |fs|
  {
    if fs == [] then []
    else (if Stays(fs[0], best, kept) then [fs[0]] else []) + Sieve(fs[1..], best, Won(fs[0], best, kept))
  }

  function Drop(fs: seq<Ranked>): seq<Ranked> {
    Sieve(fs, Best(fs), {})
  }

  /** The first parameter of each slot stays. */
  function Dedupe(fs: seq<Ranked>, seen: set<string>): seq<Ranked>
    decreases |fs|
  {
    if fs == [] then []
    else
      var p := fs[0].decl.param;
      if p != "" && p in seen then Dedupe(fs[1..], seen) else [fs[0]] + Dedupe(fs[1..], if p != "" then seen + {p} else seen)
  }

  function Lift(fs: seq<Ranked>, up: nat): (r: seq<Ranked>)
    ensures |r| == |fs| && forall i | 0 <= i < |fs| :: r[i] == fs[i].(depth := fs[i].depth + up)
  {
    seq(|fs|, i requires 0 <= i < |fs| => fs[i].(depth := fs[i].depth + up))
  }

  // ----- the best ranks

  predicate Holds(fs: seq<Ranked>, k: string, r: nat) {
    exists f <- fs :: f.decl.key == k && RankOf(f) == r
  }

  lemma {:induction false} BestIsLeast(fs: seq<Ranked>)
    ensures forall f <- fs :: f.decl.key != "" ==> f.decl.key in Best(fs) && Best(fs)[f.decl.key] <= RankOf(f)
    ensures forall k <- Best(fs) :: k != "" && Holds(fs, k, Best(fs)[k])
    decreases |fs|
  {
    if fs != [] {
      BestIsLeast(fs[1..]);
      forall k | k in Best(fs) ensures k != "" && Holds(fs, k, Best(fs)[k]) {
        if k in Best(fs[1..]) && Best(fs)[k] == Best(fs[1..])[k] {
          var f :| f in fs[1..] && f.decl.key == k && RankOf(f) == Best(fs)[k];
          assert f in fs;
        } else {
          assert fs[0] in fs;
        }
      }
    }
  }

  /** Lists that hold each other's best fields have the same best ranks. */
  lemma SameBest(a: seq<Ranked>, b: seq<Ranked>)
    requires forall k <- Best(a) :: Holds(b, k, Best(a)[k])
    requires forall k <- Best(b) :: Holds(a, k, Best(b)[k])
    ensures Best(a) == Best(b)
  {
    BestIsLeast(a);
    BestIsLeast(b);
    forall k ensures k in Best(a) <==> k in Best(b)
      ensures k in Best(a) && k in Best(b) ==> Best(a)[k] == Best(b)[k]
    {
      if k in Best(a) {
        assert Holds(b, k, Best(a)[k]);
      }
      if k in Best(b) {
        assert Holds(a, k, Best(b)[k]);
      }
    }
  }

  // ----- the sieve, piece by piece

  /** The keys decided once fs has passed. */
  function Decided(fs: seq<Ranked>, best: map<string, nat>, kept: set<string>): set<string>
    decreases |fs|
  {
    if fs == [] then kept else Decided(fs[1..], best, Won(fs[0], best, kept))
  }

  lemma {:induction false} SieveSplits(a: seq<Ranked>, b: seq<Ranked>, best: map<string, nat>, kept: set<string>)
    ensures Sieve(a + b, best, kept) == Sieve(a, best, kept) + Sieve(b, best, Decided(a, best, kept))
    ensures Decided(a + b, best, kept) == Decided(b, best, Decided(a, best, kept))
    decreases |a|
  {
    if a == [] {
      assert a + b == b;
    } else {
      assert (a + b)[1..] == a[1..] + b;
      SieveSplits(a[1..], b, best, Won(a[0], best, kept));
    }
  }

  predicate NoBetter(best: map<string, nat>, other: map<string, nat>) {
    forall k <- other :: k in best && best[k] <= other[k]
  }

  /** Sieving by a list's own best ranks first changes nothing. */
  lemma {:induction false} SieveTwice(fs: seq<Ranked>, own: map<string, nat>, ownKept: set<string>, best: map<string, nat>, kept: set<string>)
    requires forall f <- fs :: f.decl.key != "" ==> f.decl.key in own && own[f.decl.key] <= RankOf(f)
    requires NoBetter(best, own)
    requires forall k <- own :: best[k] == own[k] && k in ownKept ==> k in kept
    ensures Sieve(Sieve(fs, own, ownKept), best, kept) == Sieve(fs, best, kept)
    ensures Decided(Sieve(fs, own, ownKept), best, kept) == Decided(fs, best, kept)
    decreases |fs|
  {
    if fs != [] {
      var f, rest := fs[0], fs[1..];
      var ownNext, next := Won(f, own, ownKept), Won(f, best, kept);
      assert f in fs;
      SieveTwice(rest, own, ownNext, best, next);
      var inner := Sieve(rest, own, ownNext);
      if Stays(f, own, ownKept) {
        assert ([f] + inner)[1..] == inner;
      } else {
        assert !Stays(f, best, kept) && next == kept;
        assert Sieve(fs, own, ownKept) == [] + inner == inner;
        assert Sieve(fs, best, kept) == [] + Sieve(rest, best, next) == Sieve(rest, best, next);
      }
    }
  }

  lemma HeadLifts(f: Ranked, up: nat, best: map<string, nat>, kept: set<string>)
    ensures var lifted, g := map k | k in best :: best[k] + 2 * up, f.(depth := f.depth + up);
            Stays(g, lifted, kept) == Stays(f, best, kept) && Won(g, lifted, kept) == Won(f, best, kept)
  {
  }

  lemma LiftPlus(a: seq<Ranked>, b: seq<Ranked>, up: nat)
    ensures Lift(a + b, up) == Lift(a, up) + Lift(b, up)
  {
  }

  lemma {:induction false} SieveLifts(fs: seq<Ranked>, up: nat, best: map<string, nat>, kept: set<string>)
    ensures var lifted := map k | k in best :: best[k] + 2 * up;
            Sieve(Lift(fs, up), lifted, kept) == Lift(Sieve(fs, best, kept), up)
    decreases |fs|
  {
    if fs != [] {
      hide Stays, Won;
      var next := Won(fs[0], best, kept);
      HeadLifts(fs[0], up, best, kept);
      SieveLifts(fs[1..], up, best, next);
      assert Lift(fs, up)[1..] == Lift(fs[1..], up);
      LiftPlus(if Stays(fs[0], best, kept) then [fs[0]] else [], Sieve(fs[1..], best, next), up);
    }
  }

  lemma {:induction false} BestLifts(fs: seq<Ranked>, up: nat)
    ensures Best(Lift(fs, up)) == map k | k in Best(fs) :: Best(fs)[k] + 2 * up
    decreases |fs|
  {
    if fs != [] {
      assert Lift(fs, up)[1..] == Lift(fs[1..], up);
      BestLifts(fs[1..], up);
    }
  }

  /** Promoting a filtered list is filtering the promoted one. */
  lemma DropLifts(fs: seq<Ranked>, up: nat)
    ensures Drop(Lift(fs, up)) == Lift(Drop(fs), up)
  {
    BestLifts(fs, up);
    SieveLifts(fs, up, Best(fs), {});
  }

  lemma {:induction false} SieveHolds(fs: seq<Ranked>, best: map<string, nat>, kept: set<string>)
    ensures forall f <- Sieve(fs, best, kept) :: f in fs
    ensures forall k, r | k !in kept && k != "" && k in best && best[k] == r && Holds(fs, k, r) :: Holds(Sieve(fs, best, kept), k, r)
    decreases |fs|
  {
    if fs != [] {
      var f, rest := fs[0], fs[1..];
      var next := Won(f, best, kept);
      SieveHolds(rest, best, next);
      var out := Sieve(fs, best, kept);
      forall k, r | k !in kept && k != "" && k in best && best[k] == r && Holds(fs, k, r) ensures Holds(out, k, r) {
        if f.decl.key == k && RankOf(f) == r {
          assert out[0] == f;
        } else {
          var g :| g in fs && g.decl.key == k && RankOf(g) == r;
          assert g in rest;
          assert Holds(rest, k, r);
          var h :| h in Sieve(rest, best, next) && h.decl.key == k && RankOf(h) == r;
          assert h in out;
        }
      }
    }
  }

  /** Filtering keeps a field of every best rank. */
  lemma DropKeepsBest(fs: seq<Ranked>)
    ensures Best(Drop(fs)) == Best(fs)
  {
    BestIsLeast(fs);
    BestIsLeast(Drop(fs));
    SieveHolds(fs, Best(fs), {});
    forall k | k in Best(Drop(fs)) ensures Holds(fs, k, Best(Drop(fs))[k]) {
      var f :| f in Drop(fs) && f.decl.key == k && RankOf(f) == Best(Drop(fs))[k];
      assert f in fs;
    }
    SameBest(Drop(fs), fs);
  }

  /** Filtering a part first is filtering the whole once. */
  lemma DropPart(a: seq<Ranked>, b: seq<Ranked>, c: seq<Ranked>)
    ensures Drop(a + Drop(b) + c) == Drop(a + b + c)
  {
    var best := Best(a + b + c);
    PartBest(a, b, c);
    BestIsLeast(b);
    SieveSplits(a, Drop(b), best, {});
    SieveSplits(a + Drop(b), c, best, {});
    SieveSplits(a, b, best, {});
    SieveSplits(a + b, c, best, {});
    SieveTwice(b, Best(b), {}, best, Decided(a, best, {}));
  }

  lemma PartBest(a: seq<Ranked>, b: seq<Ranked>, c: seq<Ranked>)
    ensures Best(a + Drop(b) + c) == Best(a + b + c)
    ensures NoBetter(Best(a + b + c), Best(b))
  {
    var whole, thin := a + b + c, a + Drop(b) + c;
    BestIsLeast(whole);
    BestIsLeast(thin);
    BestIsLeast(b);
    DropKeepsBest(b);
    SieveHolds(b, Best(b), {});
    hide Best, Sieve;
    forall k | k in Best(b) ensures k in Best(whole) && Best(whole)[k] <= Best(b)[k] {
      var f :| f in b && f.decl.key == k && RankOf(f) == Best(b)[k];
      assert f in whole;
    }
    forall k | k in Best(thin) ensures Holds(whole, k, Best(thin)[k]) {
      var f :| f in thin && f.decl.key == k && RankOf(f) == Best(thin)[k];
      assert f in whole;
    }
    forall k | k in Best(whole) ensures Holds(thin, k, Best(whole)[k]) {
      ThinHolds(a, b, c, k);
    }
    SameBest(thin, whole);
  }

  lemma ThinHolds(a: seq<Ranked>, b: seq<Ranked>, c: seq<Ranked>, k: string)
    requires k in Best(a + b + c)
    ensures Holds(a + Drop(b) + c, k, Best(a + b + c)[k])
  {
    var whole, thin := a + b + c, a + Drop(b) + c;
    BestIsLeast(whole);
    BestIsLeast(b);
    SieveHolds(b, Best(b), {});
    hide Best, Sieve;
    var f :| f in whole && f.decl.key == k && RankOf(f) == Best(whole)[k];
    if f in a || f in c {
      assert f in thin;
    } else {
      assert f in b && Holds(b, k, RankOf(f));
      var x :| x in b && x.decl.key == k && RankOf(x) == Best(b)[k];
      assert x in whole && Best(b)[k] == RankOf(f);
      var g :| g in Sieve(b, Best(b), {}) && g.decl.key == k && RankOf(g) == RankOf(f);
      assert g in thin;
    }
  }

  // ----- what stays

  /** Where one field of a key outranks all others, it stays, and no other body field of that key does. */
  lemma DominantStays(fs: seq<Ranked>, f: Ranked)
    requires f in fs && f.decl.key != ""
    requires forall g <- fs :: g.decl.key == f.decl.key && g != f ==> Outranks(f, g)
    ensures f in Drop(fs)
    ensures forall g <- Drop(fs) :: g.decl.key == f.decl.key && g.decl.param == "" ==> g == f
  {
    BestIsLeast(fs);
    SieveHolds(fs, Best(fs), {});
    var k := f.decl.key;
    var b :| b in fs && b.decl.key == k && RankOf(b) == Best(fs)[k];
    RankIsOrder(f, b);
    assert Holds(fs, k, RankOf(f));
    var g :| g in Drop(fs) && g.decl.key == k && RankOf(g) == RankOf(f);
    RankIsOrder(f, g);
    forall h | h in Drop(fs) && h.decl.key == k && h.decl.param == "" ensures h == f {
      SieveWinners(fs, Best(fs), {}, h);
      RankIsOrder(f, h);
    }
  }

  lemma {:induction false} SieveWinners(fs: seq<Ranked>, best: map<string, nat>, kept: set<string>, f: Ranked)
    requires f in Sieve(fs, best, kept) && f.decl.key != "" && f.decl.param == ""
    ensures f in fs && f.decl.key in best && RankOf(f) == best[f.decl.key] && f.decl.key !in kept
    decreases |fs|
  {
    var rest := Sieve(fs[1..], best, Won(fs[0], best, kept));
    if f in rest {
      SieveWinners(fs[1..], best, Won(fs[0], best, kept), f);
    }
  }

  /** A body key appears at most once: every other body field of it is gone. */
  lemma {:induction false} SieveOnce(fs: seq<Ranked>, best: map<string, nat>, kept: set<string>, i: nat, j: nat)
    requires var out := Sieve(fs, best, kept);
             i < j < |out| && out[i].decl.key == out[j].decl.key != "" && out[i].decl.param == "" && out[j].decl.param == ""
    ensures false
    decreases |fs|
  {
    var out, next := Sieve(fs, best, kept), Won(fs[0], best, kept);
    var rest := Sieve(fs[1..], best, next);
    if Stays(fs[0], best, kept) {
      assert out == [fs[0]] + rest;
      if i == 0 {
        assert out[j] == rest[j - 1] && out[j] in rest;
        SieveWinners(fs[1..], best, next, out[j]);
      } else {
        SieveOnce(fs[1..], best, next, i - 1, j - 1);
      }
    } else {
      assert out == rest;
      SieveOnce(fs[1..], best, next, i, j);
    }
  }

  // ----- exactly what stays

  /** No field of its key outranks fs[i], and every earlier one is outranked by it; parameters and keyless fields always stay. */
  predicate StaysAt(fs: seq<Ranked>, i: nat)
    requires i < |fs|
  {
    || fs[i].decl.key == "" || fs[i].decl.param != ""
    || ((forall j | 0 <= j < |fs| && fs[j].decl.key == fs[i].decl.key :: !Outranks(fs[j], fs[i]))
        && (forall j | 0 <= j < i && fs[j].decl.key == fs[i].decl.key :: Outranks(fs[i], fs[j])))
  }

  /** Of the first n fields those that stay, in order. */
  function Chosen(fs: seq<Ranked>, n: nat): seq<Ranked>
    requires n <= |fs|
  {
    if n == 0 then [] else Chosen(fs, n - 1) + if StaysAt(fs, n - 1) then [fs[n - 1]] else []
  }

  /** The keys won among the first i fields. */
  function WonBefore(fs: seq<Ranked>, i: nat): set<string>
    requires i <= |fs|
  {
    set j | 0 <= j < i && fs[j].decl.key != "" && fs[j].decl.key in Best(fs) && RankOf(fs[j]) == Best(fs)[fs[j].decl.key] :: fs[j].decl.key
  }

  lemma OneMoreWon(fs: seq<Ranked>, i: nat)
    requires i < |fs|
    ensures Won(fs[i], Best(fs), WonBefore(fs, i)) == WonBefore(fs, i + 1)
  {
    hide Best, RankOf;
    assert WonBefore(fs, i + 1) <= WonBefore(fs, i) + {fs[i].decl.key};
    if Wins(fs[i], Best(fs), WonBefore(fs, i)) {
      assert fs[i].decl.key in WonBefore(fs, i + 1);
    }
  }

  lemma StaysWhereItShould(fs: seq<Ranked>, i: nat)
    requires i < |fs|
    ensures Stays(fs[i], Best(fs), WonBefore(fs, i)) <==> StaysAt(fs, i)
  {
    var f, k := fs[i], fs[i].decl.key;
    if k != "" && f.decl.param == "" {
      BestIsLeast(fs);
      assert f in fs;
      var b :| b in fs && b.decl.key == k && RankOf(b) == Best(fs)[k];
      var at :| 0 <= at < |fs| && fs[at] == b;
      forall j | 0 <= j < |fs| && fs[j].decl.key == k
        ensures Best(fs)[k] <= RankOf(fs[j]) && (Outranks(fs[j], f) <==> RankOf(fs[j]) < RankOf(f))
        ensures Outranks(f, fs[j]) <==> RankOf(f) < RankOf(fs[j])
      {
        assert fs[j] in fs;
        RankIsOrder(fs[j], f);
        RankIsOrder(f, fs[j]);
      }
      hide Best, RankOf, Outranks;
      if StaysAt(fs, i) {
        assert !Outranks(fs[at], f);
        assert RankOf(f) == Best(fs)[k];
      }
    }
  }

  /** Filtering keeps exactly the fields that should stay, in order. */
  lemma DropIsExact(fs: seq<Ranked>)
    ensures Drop(fs) == Chosen(fs, |fs|)
  {
    assert fs[0..] == fs && WonBefore(fs, 0) == {};
    SieveChooses(fs, 0);
  }

  lemma {:induction false} SieveChooses(fs: seq<Ranked>, i: nat)
    requires i <= |fs|
    ensures Chosen(fs, i) + Sieve(fs[i..], Best(fs), WonBefore(fs, i)) == Chosen(fs, |fs|)
    decreases |fs| - i
  {
    if i == |fs| {
      assert fs[i..] == [];
    } else {
      hide Best, Sieve, StaysAt, WonBefore, Chosen;
      var one, rest := if StaysAt(fs, i) then [fs[i]] else [], Sieve(fs[i + 1..], Best(fs), WonBefore(fs, i + 1));
      OneSieved(fs, i);
      SieveChooses(fs, i + 1);
      OneChosen(fs, i);
      PlusAssociates(Chosen(fs, i), one, rest);
    }
  }

  lemma OneChosen(fs: seq<Ranked>, i: nat)
    requires i < |fs|
    ensures Chosen(fs, i + 1) == Chosen(fs, i) + if StaysAt(fs, i) then [fs[i]] else []
  {
  }

  lemma PlusAssociates(a: seq<Ranked>, b: seq<Ranked>, c: seq<Ranked>)
    ensures (a + b) + c == a + (b + c)
  {
  }

  lemma OneSieved(fs: seq<Ranked>, i: nat)
    requires i < |fs|
    ensures Sieve(fs[i..], Best(fs), WonBefore(fs, i))
         == (if StaysAt(fs, i) then [fs[i]] else []) + Sieve(fs[i + 1..], Best(fs), WonBefore(fs, i + 1))
  {
    hide Best, Stays, Won, StaysAt, WonBefore;
    StaysWhereItShould(fs, i);
    OneMoreWon(fs, i);
    assert fs[i..][0] == fs[i] && fs[i..][1..] == fs[i + 1..];
  }

  /** The fields of the first n that are no parameter, or the first of their slot. */
  function FirstOfSlot(fs: seq<Ranked>, n: nat): seq<Ranked>
    requires n <= |fs|
  {
    if n == 0 then []
    else
      var p := fs[n - 1].decl.param;
      FirstOfSlot(fs, n - 1) + if p == "" || forall j | 0 <= j < n - 1 :: fs[j].decl.param != p then [fs[n - 1]] else []
  }

  function SlotsBefore(fs: seq<Ranked>, n: nat): set<string>
    requires n <= |fs|
  {
    set j | 0 <= j < n && fs[j].decl.param != "" :: fs[j].decl.param
  }

  /** Dropping duplicate parameters keeps exactly the first of each slot, in order. */
  lemma DedupeIsExact(fs: seq<Ranked>)
    ensures Dedupe(fs, {}) == FirstOfSlot(fs, |fs|)
  {
    assert fs[0..] == fs && SlotsBefore(fs, 0) == {};
    DedupeKeeps(fs, 0);
  }

  lemma {:induction false} DedupeKeeps(fs: seq<Ranked>, i: nat)
    requires i <= |fs|
    ensures FirstOfSlot(fs, i) + Dedupe(fs[i..], SlotsBefore(fs, i)) == FirstOfSlot(fs, |fs|)
    decreases |fs| - i
  {
    if i == |fs| {
      assert fs[i..] == [];
    } else {
      hide Dedupe, SlotsBefore;
      var some, rest := FirstOfSlot(fs, i), Dedupe(fs[i + 1..], SlotsBefore(fs, i + 1));
      var one := if fs[i].decl.param in SlotsBefore(fs, i) then [] else [fs[i]];
      DedupeStep(fs, i);
      DedupeKeeps(fs, i + 1);
      assert FirstOfSlot(fs, i + 1) == some + one;
      PlusAssociates(some, one, rest);
    }
  }

  lemma DedupeStep(fs: seq<Ranked>, i: nat)
    requires i < |fs|
    ensures Dedupe(fs[i..], SlotsBefore(fs, i))
         == (if fs[i].decl.param in SlotsBefore(fs, i) then [] else [fs[i]]) + Dedupe(fs[i + 1..], SlotsBefore(fs, i + 1))
    ensures fs[i].decl.param in SlotsBefore(fs, i) <==> fs[i].decl.param != "" && exists j | 0 <= j < i :: fs[j].decl.param == fs[i].decl.param
  {
    var p, rest := fs[i].decl.param, fs[i..];
    assert rest[0] == fs[i] && rest[1..] == fs[i + 1..];
    assert SlotsBefore(fs, i + 1) == if p != "" then SlotsBefore(fs, i) + {p} else SlotsBefore(fs, i);
    assert p in SlotsBefore(fs, i) ==> SlotsBefore(fs, i) + {p} == SlotsBefore(fs, i);
  }
}
