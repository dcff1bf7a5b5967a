/** Route paths as OpenAPI templates, and the parameters a template must declare. */
module Paths {
  import opened Wrappers

  // ----- splitting at slashes

  function Split(s: string): (r: seq<string>)
    ensures |r| > 0
    decreases |s|
  {
    if s == "" then [""]
    else
      var rest := Split(s[1..]);
      if s[0] == '/' then [""] + rest else [[s[0]] + rest[0]] + rest[1..]
  }

  function Join(segments: seq<string>): string
    requires |segments| > 0
  {
    if |segments| == 1 then segments[0] else segments[0] + "/" + Join(segments[1..])
  }

  predicate NoSlash(s: string) {
    '/' !in s
  }

  lemma {:induction false} SplitPieces(s: string)
    ensures forall p <- Split(s) :: NoSlash(p)
    ensures forall p <- Split(s), c <- p :: c in s
    decreases |s|
  {
    if s != "" {
      SplitPieces(s[1..]);
      var rest := Split(s[1..]);
      forall p | p in Split(s) ensures NoSlash(p) && forall c <- p :: c in s {
        if p in rest {
          assert forall c <- p :: c in s[1..];
        } else if s[0] != '/' {
          assert p == [s[0]] + rest[0] && rest[0] in rest;
        }
      }
    }
  }

  lemma {:induction false} JoinOfSplit(s: string)
    ensures Join(Split(s)) == s
    decreases |s|
  {
    if s != "" {
      JoinOfSplit(s[1..]);
      var rest := Split(s[1..]);
      if s[0] == '/' {
        assert ([""] + rest)[1..] == rest;
      } else {
        var all := [[s[0]] + rest[0]] + rest[1..];
        assert all[1..] == rest[1..];
      }
    }
  }

  lemma {:induction false} SplitOfJoin(segments: seq<string>)
    requires |segments| > 0 && forall p <- segments :: NoSlash(p)
    ensures Split(Join(segments)) == segments
    decreases |segments|
  {
    if |segments| == 1 {
      SplitOne(segments[0]);
    } else {
      SplitOfJoin(segments[1..]);
      SplitFirst(segments[0], Join(segments[1..]));
    }
  }

  lemma {:induction false} SplitOne(s: string)
    requires NoSlash(s)
    ensures Split(s) == [s]
    decreases |s|
  {
    if s != "" {
      SplitOne(s[1..]);
      assert [s[0]] + s[1..] == s;
    }
  }

  lemma {:induction false} SplitFirst(s: string, rest: string)
    requires NoSlash(s)
    ensures Split(s + "/" + rest) == [s] + Split(rest)
    decreases |s|
  {
    var all := s + "/" + rest;
    if s == "" {
      assert all[1..] == rest;
    } else {
      assert all[1..] == s[1..] + "/" + rest;
      SplitFirst(s[1..], rest);
      assert [s[0]] + s[1..] == s;
    }
  }

  // ----- templates

  predicate IsNamed(segment: string) {
    |segment| > 1 && segment[0] == ':'
  }

  function TemplateSegment(segment: string): string {
    if IsNamed(segment) then "{" + segment[1..] + "}" else segment
  }

  function TemplateAll(segments: seq<string>): (r: seq<string>)
    ensures |r| == |segments|
  {
    seq(|segments|, i requires 0 <= i < |segments| => TemplateSegment(segments[i]))
  }

  function Normalize(path: string): string {
    if ':' !in path then path else Join(TemplateAll(Split(path)))
  }

  predicate IsTemplate(segment: string) {
    |segment| > 2 && segment[0] == '{' && segment[|segment| - 1] == '}'
  }

  function VarsOf(segments: seq<string>): seq<string> {
    if segments == [] then []
    else (if IsTemplate(segments[0]) then [segments[0][1..|segments[0]| - 1]] else []) + VarsOf(segments[1..])
  }

  function TemplateVars(path: string): seq<string> {
    VarsOf(Split(path))
  }

  /** The names of the path's named segments, in order. */
  function NamesOf(segments: seq<string>): seq<string> {
    if segments == [] then [] else (if IsNamed(segments[0]) then [segments[0][1..]] else []) + NamesOf(segments[1..])
  }

  lemma {:induction false} VarsAreNames(segments: seq<string>)
    requires forall s <- segments :: '{' !in s
    ensures VarsOf(TemplateAll(segments)) == NamesOf(segments)
    decreases |segments|
  {
    if segments != [] {
      var s, t := segments[0], TemplateSegment(segments[0]);
      assert TemplateAll(segments)[1..] == TemplateAll(segments[1..]);
      VarsAreNames(segments[1..]);
      assert s in segments;
      if IsNamed(s) {
        assert t[1..|t| - 1] == s[1..];
      }
    }
  }

  lemma {:induction false} NoColonNoNames(segments: seq<string>)
    requires forall s <- segments :: ':' !in s
    ensures NamesOf(segments) == [] && TemplateAll(segments) == segments
    decreases |segments|
  {
    if segments != [] {
      NoColonNoNames(segments[1..]);
      assert segments[0] in segments && !IsNamed(segments[0]);
      assert TemplateAll(segments) == [TemplateSegment(segments[0])] + TemplateAll(segments[1..]);
    }
  }

  lemma SplitNormalized(path: string)
    ensures Split(Normalize(path)) == TemplateAll(Split(path))
  {
    var segments := Split(path);
    SplitPieces(path);
    if ':' in path {
      forall p | p in TemplateAll(segments) ensures NoSlash(p) {
        var i :| 0 <= i < |segments| && TemplateAll(segments)[i] == p;
        assert segments[i] in segments;
      }
      SplitOfJoin(TemplateAll(segments));
    } else {
      NoColonNoNames(segments);
    }
  }

  /** A brace-free path's template variables are its named segments, in order. */
  lemma NormalizeNamesVars(path: string)
    requires '{' !in path
    ensures TemplateVars(Normalize(path)) == NamesOf(Split(path))
  {
    SplitPieces(path);
    VarsAreNames(Split(path));
    SplitNormalized(path);
  }

  /** Normalizing rewrites each named segment in place and leaves every other as it is. */
  lemma NormalizeInPlace(path: string)
    ensures |Split(Normalize(path))| == |Split(path)|
    ensures forall i | 0 <= i < |Split(path)| ::
              var s, t := Split(path)[i], Split(Normalize(path))[i];
              if |s| > 1 && s[0] == ':' then t == "{" + s[1..] + "}" else t == s
  {
    SplitNormalized(path);
  }

  /** A path's named segments are those written with a colon and a name. */
  lemma {:induction false} NamesAreNamed(segments: seq<string>)
    ensures forall v :: v in NamesOf(segments) <==> v != "" && ":" + v in segments
    decreases |segments|
  {
    if segments != [] {
      NamesAreNamed(segments[1..]);
      forall v ensures v in NamesOf(segments) <==> v != "" && ":" + v in segments {
        assert segments == [segments[0]] + segments[1..];
        if IsNamed(segments[0]) && v == segments[0][1..] {
          assert ":" + v == segments[0];
        }
        if ":" + v == segments[0] && v != "" {
          assert IsNamed(segments[0]) && segments[0][1..] == v;
        }
      }
    }
  }

  /** A template's variables are those written between braces. */
  lemma {:induction false} VarsAreBraced(segments: seq<string>)
    ensures forall v :: v in VarsOf(segments) <==> v != "" && "{" + v + "}" in segments
    decreases |segments|
  {
    if segments != [] {
      VarsAreBraced(segments[1..]);
      forall v ensures v in VarsOf(segments) <==> v != "" && "{" + v + "}" in segments {
        var s := segments[0];
        assert segments == [s] + segments[1..];
        if IsTemplate(s) && v == s[1..|s| - 1] {
          assert "{" + v + "}" == s;
        }
        if "{" + v + "}" == s && v != "" {
          assert IsTemplate(s) && s[1..|s| - 1] == v;
        }
      }
    }
  }

  // ----- parameters

  datatype Parameter = Parameter(name: string, place: string, required: bool)

  const PATH := "path"

  predicate Declares(params: seq<Parameter>, name: string) {
    exists p <- params :: p.place == PATH && p.name == name
  }

  predicate UniqueParameters(params: seq<Parameter>) {
    forall i, j | 0 <= i < j < |params| :: params[i].name != params[j].name || params[i].place != params[j].place
  }

  predicate PathIsRequired(params: seq<Parameter>) {
    forall p <- params :: p.place == PATH ==> p.required
  }

  lemma DeclaresMore(params: seq<Parameter>, p: Parameter)
    ensures forall n :: Declares(params + [p], n) <==> Declares(params, n) || (p.place == PATH && n == p.name)
  {
    var more := params + [p];
    forall n ensures Declares(more, n) <==> Declares(params, n) || (p.place == PATH && n == p.name) {
      assert more[|params|] == p && p in more;
      if Declares(params, n) {
        var q :| q in params && q.place == PATH && q.name == n;
        assert q in more;
      }
    }
  }

  /** out: params, and then path parameters for variables among vars they do not declare. */
  predicate Completes(out: seq<Parameter>, params: seq<Parameter>, vars: seq<string>) {
    && |params| <= |out| && out[..|params|] == params
    && (PathIsRequired(params) ==> PathIsRequired(out))
    && (forall p <- out[|params|..] :: p.place == PATH && p.required && p.name in vars && !Declares(params, p.name))
    && (UniqueParameters(params) ==> UniqueParameters(out))
  }

  lemma CompletesMore(out: seq<Parameter>, params: seq<Parameter>, vars: seq<string>, v: string)
    requires Completes(out, params, vars) && v in vars && !Declares(out, v)
    ensures Completes(out + [Parameter(v, PATH, true)], params, vars)
  {
    var p := Parameter(v, PATH, true);
    var more := out + [p];
    assert forall q <- params :: q in out[..|params|] && q in out;
    assert more[|params|..] == out[|params|..] + [p];
    forall j | 0 <= j < |out| && out[j].place == PATH ensures out[j].name != v {
      assert out[j] in out;
    }
  }

  /** The path parameters declared so far. */
  method DeclaredNames(params: seq<Parameter>) returns (declared: set<string>)
    ensures forall n :: n in declared <==> Declares(params, n)
  {
    declared := {};
    var i := 0;
    while i < |params|
      invariant 0 <= i <= |params|
      invariant forall n :: n in declared <==> Declares(params[..i], n)
    {
      DeclaresMore(params[..i], params[i]);
      assert params[..i + 1] == params[..i] + [params[i]];
      if params[i].place == PATH {
        declared := declared + {params[i].name};
      }
      i := i + 1;
    }
    assert params[..i] == params;
  }

  /** A parameter for every template variable not declared yet. */
  method AppendMissing(params: seq<Parameter>, path: string) returns (out: seq<Parameter>)
    ensures Completes(out, params, TemplateVars(path))
    ensures forall v <- TemplateVars(path) :: Declares(out, v)
    ensures forall v | v != "" && "{" + v + "}" in Split(path) :: Declares(out, v)
  {
    VarsAreBraced(Split(path));
    var vars := TemplateVars(path);
    var declared := DeclaredNames(params);
    out := params;
    var i := 0;
    while i < |vars|
      invariant 0 <= i <= |vars| && Completes(out, params, vars)
      invariant forall n :: n in declared <==> Declares(out, n)
      invariant forall v <- vars[..i] :: Declares(out, v)
    {
      var v := vars[i];
      assert vars[..i + 1] == vars[..i] + [v];
      if v !in declared {
        DeclaresMore(out, Parameter(v, PATH, true));
        CompletesMore(out, params, vars, v);
        hide Declares, Completes;
        declared := declared + {v};
        out := out + [Parameter(v, PATH, true)];
      }
      i := i + 1;
    }
    assert vars[..i] == vars;
  }

  /** A brace-free path's named segments are all declared, each required. */
  method CompleteParameters(params: seq<Parameter>, path: string) returns (out: seq<Parameter>)
    requires '{' !in path && PathIsRequired(params)
    ensures Completes(out, params, NamesOf(Split(path))) && PathIsRequired(out)
    ensures forall v | v != "" && ":" + v in Split(path) :: Declares(out, v)
    ensures forall p <- out[|params|..] :: p.name != "" && ":" + p.name in Split(path)
  {
    NormalizeNamesVars(path);
    NamesAreNamed(Split(path));
    out := AppendMissing(params, Normalize(path));
  }
}
