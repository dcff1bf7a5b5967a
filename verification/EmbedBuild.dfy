/** The analyzer's own loops over ranked fields, and its walk through embedded structs. */
module EmbedBuild {
  import opened Wrappers
  import opened Embed
  import opened EmbedTree

  lemma {:induction false} BestMore(fs: seq<Ranked>, f: Ranked)
    ensures Best(fs + [f]) == var b, k, r := Best(fs), f.decl.key, RankOf(f); if k == "" || (k in b && b[k] <= r) then b else b[k := r]
    decreases |fs|
  {
    hide Best, RankOf;
    var all := fs + [f];
    BestIsLeast(fs);
    BestIsLeast(all);
    var b, k, r := Best(fs), f.decl.key, RankOf(f);
    var expected := if k == "" || (k in b && b[k] <= r) then b else b[k := r];
    forall j | j in expected ensures j in Best(all) && Best(all)[j] <= expected[j] {
      if j == k && expected[j] == r && k != "" {
        assert f in all;
      } else {
        var x :| x in fs && x.decl.key == j && RankOf(x) == b[j];
        assert x in all;
      }
    }
    forall j | j in Best(all) ensures j in expected && expected[j] <= Best(all)[j] {
      var x :| x in all && x.decl.key == j && RankOf(x) == Best(all)[j];
      assert x == f || x in fs;
    }
  }

  /** The winners, one per key, collected from left to right. */
  method BestByKey(fields: seq<Ranked>) returns (best: map<string, Ranked>)
    ensures best.Keys == Best(fields).Keys
    ensures forall k <- best :: best[k] in fields && best[k].decl.key == k && RankOf(best[k]) == Best(fields)[k]
  {
    best := map[];
    var i := 0;
    while i < |fields|
      invariant 0 <= i <= |fields| && best.Keys == Best(fields[..i]).Keys
      invariant forall k <- best :: best[k] in fields && best[k].decl.key == k && RankOf(best[k]) == Best(fields[..i])[k]
    {
      var f := fields[i];
      var k := f.decl.key;
      BestMore(fields[..i], f);
      assert fields[..i + 1] == fields[..i] + [f];
      if k != "" && (k !in best || Outranks(f, best[k])) {
        best := best[k := f];
      }
      i := i + 1;
    }
    assert fields[..i] == fields;
  }

  lemma SieveStep(fs: seq<Ranked>, i: nat, best: map<string, nat>, kept: set<string>, out: seq<Ranked>)
    requires i < |fs|
    ensures out + Sieve(fs[i..], best, kept)
         == (if Stays(fs[i], best, kept) then out + [fs[i]] else out) + Sieve(fs[i + 1..], best, Won(fs[i], best, kept))
  {
    assert fs[i..][1..] == fs[i + 1..];
  }

  method DropDominated(fields: seq<Ranked>) returns (out: seq<Ranked>)
    ensures out == Drop(fields)
  {
    var best := BestByKey(fields);
    var kept: set<string> := {};
    var i := 0;
    out := [];
    BestIsLeast(fields);
    assert fields[0..] == fields && [] + Drop(fields) == Drop(fields);
    while i < |fields|
      invariant 0 <= i <= |fields|
      invariant Drop(fields) == out + Sieve(fields[i..], Best(fields), kept)
    {
      var f := fields[i];
      var k := f.decl.key;
      SieveStep(fields, i, Best(fields), kept, out);
      var stays := true;
      if k != "" {
        assert f in fields;
        var won := k !in kept && !Outranks(best[k], f);
        if won {
          kept := kept + {k};
        }
        stays := won || f.decl.param != "";
      }
      if stays {
        out := out + [f];
      }
      i := i + 1;
    }
    assert fields[i..] == [];
  }

  /** Keeps the first parameter of each slot, in place: the kept fields are a's first n. */
  method DropDuplicateParams(a: array<Ranked>) returns (n: nat)
    modifies a
    ensures n <= a.Length && a[..n] == Dedupe(old(a[..]), {})
  {
    var seen: set<string> := {};
    ghost var before := a[..];
    var i := 0;
    n := 0;
    assert before[0..] == before;
    while i < a.Length
      invariant 0 <= n <= i <= a.Length && a[i..] == before[i..]
      invariant Dedupe(before, {}) == a[..n] + Dedupe(before[i..], seen)
    {
      var f := a[i];
      assert f == before[i..][0] && before[i..][1..] == before[i + 1..];
      var p := f.decl.param;
      if p != "" && p in seen {
        i := i + 1;
      } else {
        if p != "" {
          seen := seen + {p};
        }
        ghost var kept := a[..n];
        a[n] := f;
        assert a[..n + 1] == kept + [f];
        n := n + 1;
        i := i + 1;
        assert a[i..] == before[i..];
      }
    }
    assert before[i..] == [];
  }

  method ToArray(fields: seq<Ranked>) returns (a: array<Ranked>)
    ensures fresh(a) && a[..] == fields
  {
    a := new Ranked[|fields|](i requires 0 <= i < |fields| => fields[i]);
  }

  class Extractor {
    const g: Graph
    var visited: set<StructId>

    constructor (g: Graph)
      ensures this.g == g && visited == {}
    {
      this.g := g;
      visited := {};
    }

    /** A struct's fields, and leaves the chain as it was. */
    method ExtractFields(s: StructId) returns (fields: seq<Ranked>)
      requires s in g
      modifies this
      ensures visited == old(visited) && fields == Extract(g, s, visited)
      decreases Left(g, visited), 1
    {
      hide Drop, Dedupe, Own, Lift;
      var promoted: seq<Ranked>, i := [], 0;
      while i < |g[s].embeds|
        invariant 0 <= i <= |g[s].embeds| && visited == old(visited) && promoted == Promoted(g, s, i, visited)
      {
        var below := EmbeddedFields(g[s].embeds[i]);
        promoted := promoted + below;
        i := i + 1;
      }
      var shallow := Own(g, s);
      var kept := DropDominated(shallow + promoted);
      var a := ToArray(kept);
      var n := DropDuplicateParams(a);
      fields := a[..n];
    }

    /** What one embedded struct promotes: nothing when the chain already holds it. */
    method EmbeddedFields(e: StructId) returns (fields: seq<Ranked>)
      modifies this
      ensures visited == old(visited)
      ensures fields == if e in g && e !in visited then Lift(Extract(g, e, visited + {e}), 1) else []
      decreases Left(g, visited), 0
    {
      if e !in g || e in visited {
        return [];
      }
      VisitShrinks(g, visited, e);
      visited := visited + {e};
      fields := ExtractFields(e);
      visited := visited - {e};
      fields := Lift(fields, 1);
    }
  }
}
