/** Names that never collide: a plain one where it is free, the first free numbered one otherwise. */
module Naming {
  import opened Wrappers

  // ----- decimal numerals

  function Digit(d: nat): char
    requires d < 10
  {
    "0123456789"[d]
  }

  function Decimal(n: nat): string {
    if n < 10 then [Digit(n)] else Decimal(n / 10) + [Digit(n % 10)]
  }

  function DigitValue(c: char): int {
    c as int - '0' as int
  }

  function ValueOf(s: string): int {
    if s == "" then 0 else 10 * ValueOf(s[..|s| - 1]) + DigitValue(s[|s| - 1])
  }

  lemma DigitRoundTrip(d: nat)
    requires d < 10
    ensures DigitValue(Digit(d)) == d
  {
  }

  lemma {:induction false} DecimalRoundTrip(n: nat)
    ensures ValueOf(Decimal(n)) == n
    decreases n
  {
    if n < 10 {
      DigitRoundTrip(n);
      assert ValueOf("") == 0 && [Digit(n)][..0] == "";
    } else {
      var tens := Decimal(n / 10);
      DigitRoundTrip(n % 10);
      DecimalRoundTrip(n / 10);
      assert (tens + [Digit(n % 10)])[..|tens|] == tens;
    }
  }

  function Numbered(base: string, i: nat): string {
    base + Decimal(i)
  }

  lemma NumberedIsInjective(base: string, i: nat, j: nat)
    requires Numbered(base, i) == Numbered(base, j)
    ensures i == j
  {
    assert Numbered(base, i)[|base|..] == Decimal(i) && Numbered(base, j)[|base|..] == Decimal(j);
    DecimalRoundTrip(i);
    DecimalRoundTrip(j);
  }

  predicate AllTaken(base: string, used: set<string>, i: nat) {
    forall j | 2 <= j < i :: Numbered(base, j) in used
  }

  /** Only as many numbers can be taken as there are names in use. */
  lemma {:induction false} TakenAreFew(base: string, used: set<string>, i: nat)
    requires i >= 2 && AllTaken(base, used, i)
    ensures i - 2 <= |used|
    decreases i
  {
    if i > 2 {
      var last := Numbered(base, i - 1);
      forall j | 2 <= j < i - 1 ensures Numbered(base, j) in used - {last} {
        if Numbered(base, j) == last {
          NumberedIsInjective(base, j, i - 1);
        }
      }
      TakenAreFew(base, used - {last}, i - 1);
    }
  }

  /** The first of base, base2, base3, ... that is free. */
  function FirstFree(base: string, used: set<string>, i: nat): (name: string)
    requires i >= 2 && AllTaken(base, used, i)
    ensures name !in used
    ensures exists j: nat :: i <= j && name == Numbered(base, j) && AllTaken(base, used, j)
    decreases |used| + 2 - i
  {
    TakenAreFew(base, used, i);
    if Numbered(base, i) !in used then Numbered(base, i)
    else
      assert AllTaken(base, used, i + 1);
      TakenAreFew(base, used, i + 1);
      FirstFree(base, used, i + 1)
  }

  function Free(base: string, used: set<string>): (name: string)
    ensures name !in used
    ensures base !in used ==> name == base
  {
    if base !in used then base else FirstFree(base, used, 2)
  }

  /** Tries base, then base2, base3, ... until one is free. */
  method FindFree(base: string, used: set<string>) returns (name: string)
    ensures name == Free(base, used)
  {
    name := base;
    var n := 2;
    while name in used
      invariant n >= 2 && name == if n == 2 then base else Numbered(base, n - 1)
      invariant n > 2 ==> base in used && AllTaken(base, used, n - 1)
      decreases |used| + 3 - n
    {
      if n > 2 {
        TakenAreFew(base, used, n);
      }
      name := Numbered(base, n);
      n := n + 1;
    }
    if n > 2 {
      FirstFreeIsLeast(base, used, 2, n - 1);
    }
  }

  lemma {:induction false} FirstFreeIsLeast(base: string, used: set<string>, i: nat, n: nat)
    requires 2 <= i <= n && AllTaken(base, used, n) && Numbered(base, n) !in used
    ensures FirstFree(base, used, i) == Numbered(base, n)
    decreases n - i
  {
    if i < n {
      assert Numbered(base, i) in used;
      FirstFreeIsLeast(base, used, i + 1, n);
    }
  }

  /** name is the first of base, base2, base3, ... that is not in use. */
  predicate IsNext(base: string, used: set<string>, name: string) {
    && name !in used
    && (if base !in used then name == base
        else exists n: nat | n <= |used| + 2 :: 2 <= n && name == base + Decimal(n) && forall i | 2 <= i < n :: base + Decimal(i) in used)
  }

  lemma FreeIsNext(base: string, used: set<string>)
    ensures IsNext(base, used, Free(base, used))
  {
    if base in used {
      var name := FirstFree(base, used, 2);
      var n: nat :| 2 <= n && name == Numbered(base, n) && AllTaken(base, used, n);
      TakenAreFew(base, used, n);
      forall i | 2 <= i < n ensures base + Decimal(i) in used {
        assert Numbered(base, i) in used;
      }
    }
  }

  lemma ValuesMore<K>(names: map<K, string>, k: K, name: string)
    requires k !in names
    ensures names[k := name].Values == names.Values + {name}
  {
    var more := names[k := name];
    assert more[k] == name;
    forall v | v in names.Values ensures v in more.Values {
      var j :| j in names && names[j] == v;
      assert more[j] == v;
    }
  }

  predicate IsInjective<K(==)>(names: map<K, string>) {
    forall a, b | a in names && b in names && names[a] == names[b] :: a == b
  }

  lemma InjectiveMore<K>(names: map<K, string>, k: K, name: string)
    requires IsInjective(names) && k !in names && name !in names.Values
    ensures IsInjective(names[k := name])
  {
    assert forall j <- names :: names[j] in names.Values;
  }

  // ----- component names

  /** A type: the directory and package that declare it, and its name. */
  datatype TypeId = TypeId(dir: string, pkg: string, name: string)

  function Upper(c: char): char {
    if 'a' <= c <= 'z' then (c as int - 'a' as int + 'A' as int) as char else c
  }

  function Exported(pkg: string): string {
    if pkg == "" then "" else [Upper(pkg[0])] + pkg[1..]
  }

  /** The name a type gets where it has none: its own if free, else one qualified by its package. */
  function NewName(t: TypeId, used: set<string>): (name: string)
    ensures name !in used && (t.name !in used ==> name == t.name)
  {
    if t.name !in used then t.name else Free(Exported(t.pkg) + t.name, used)
  }

  /** A package's name with its first letter in upper case. */
  lemma ExportedIsUpper(pkg: string)
    requires pkg != ""
    ensures var r := Exported(pkg);
            |r| == |pkg| && r[1..] == pkg[1..]
            && (if 'a' <= pkg[0] <= 'z' then 'A' <= r[0] <= 'Z' && r[0] as int - 'A' as int == pkg[0] as int - 'a' as int else r[0] == pkg[0])
  {
  }

  /** A new type is named by its own name, else by its package and name, else by these and the least number that is free. */
  lemma NewNameIsNext(t: TypeId, used: set<string>)
    ensures if t.name !in used then NewName(t, used) == t.name else IsNext(Exported(t.pkg) + t.name, used, NewName(t, used))
  {
    FreeIsNext(Exported(t.pkg) + t.name, used);
  }

  function NameOf(names: map<TypeId, string>, t: TypeId): string {
    if t in names then names[t] else NewName(t, names.Values)
  }

  /** The names after a run of calls. */
  function AfterCalls(names: map<TypeId, string>, calls: seq<TypeId>): map<TypeId, string>
    decreases |calls|
  {
    if calls == [] then names else AfterCalls(names[calls[0] := NameOf(names, calls[0])], calls[1..])
  }

  /** No run of calls gives two types one name, or one type two. */
  lemma {:induction false} NamesNeverCollide(names: map<TypeId, string>, calls: seq<TypeId>)
    requires IsInjective(names)
    ensures IsInjective(AfterCalls(names, calls))
    ensures forall t <- names :: t in AfterCalls(names, calls) && AfterCalls(names, calls)[t] == names[t]
    ensures forall t <- calls :: t in AfterCalls(names, calls)
    decreases |calls|
  {
    if calls != [] {
      var t := calls[0];
      var next := names[t := NameOf(names, t)];
      if t !in names {
        InjectiveMore(names, t, NameOf(names, t));
      }
      NamesNeverCollide(next, calls[1..]);
      assert forall c <- calls :: c == t || c in calls[1..];
    }
  }

  class ComponentNames {
    var names: map<TypeId, string>
    var used: set<string>

    /** Every name in use belongs to exactly one type. */
    ghost predicate Valid()
      reads this
    {
      used == names.Values && IsInjective(names)
    }

    constructor ()
      ensures Valid() && names == map[]
    {
      names := map[];
      used := {};
    }

    /** Idempotent: a type that has a name keeps it. */
    method SchemaKey(t: TypeId) returns (name: string)
      requires Valid()
      modifies this
      ensures Valid() && name == NameOf(old(names), t) && names == old(names)[t := name]
      ensures AfterCalls(old(names), [t]) == names
    {
      NamesNeverCollide(names, [t]);
      assert [t][1..] == [];
      if t in names {
        name := names[t];
        assert names == names[t := name];
        return;
      }
      name := t.name;
      if name in used {
        name := FindFree(Exported(t.pkg) + t.name, used);
      }
      ValuesMore(names, t, name);
      InjectiveMore(names, t, name);
      used := used + {name};
      names := names[t := name];
    }
  }

  // ----- operation ids

  predicate Less(a: string, b: string)
    decreases |a|
  {
    if b == "" then false
    else if a == "" then true
    else a[0] < b[0] || (a[0] == b[0] && Less(a[1..], b[1..]))
  }

  lemma {:induction false} LessIsTransitive(a: string, b: string, c: string)
    requires Less(a, b) && Less(b, c)
    ensures Less(a, c)
    decreases |a|
  {
    if a != "" && a[0] == b[0] == c[0] {
      LessIsTransitive(a[1..], b[1..], c[1..]);
    }
  }

  lemma {:induction false} LessIsTotal(a: string, b: string)
    ensures Less(a, b) || a == b || Less(b, a)
    ensures !(Less(a, b) && Less(b, a)) && !Less(a, a)
    decreases |a|
  {
    if a != "" {
      LessIsTotal(a[1..], a[1..]);
      if b != "" {
        LessIsTotal(a[1..], b[1..]);
        if a[1..] == b[1..] && a[0] == b[0] {
          assert a == [a[0]] + a[1..] && b == [b[0]] + b[1..];
        }
      }
    }
  }

  predicate Sorted(keys: seq<string>) {
    forall i, j | 0 <= i < j < |keys| :: Less(keys[i], keys[j])
  }

  function Elements(keys: seq<string>): set<string> {
    set k | k in keys
  }

  /** A set has one sorted listing. */
  lemma {:induction false} SortedIsUnique(a: seq<string>, b: seq<string>)
    requires Sorted(a) && Sorted(b) && Elements(a) == Elements(b)
    ensures a == b
    decreases |a|
  {
    ElementsEmpty(a);
    ElementsEmpty(b);
    if a != [] {
      assert a[0] in Elements(a) && b[0] in Elements(b);
      LessIsTotal(a[0], b[0]);
      SortedHead(a, b[0]);
      SortedHead(b, a[0]);
      TailElements(a);
      TailElements(b);
      SortedIsUnique(a[1..], b[1..]);
      assert a == [a[0]] + a[1..] && b == [b[0]] + b[1..];
    }
  }

  lemma ElementsEmpty(keys: seq<string>)
    ensures Elements(keys) == {} <==> keys == []
  {
    if keys != [] {
      assert keys[0] in Elements(keys);
    }
  }

  lemma SortedHead(keys: seq<string>, k: string)
    requires Sorted(keys) && k in Elements(keys)
    ensures |keys| > 0 && (k == keys[0] || Less(keys[0], k))
  {
    var i :| 0 <= i < |keys| && keys[i] == k;
  }

  lemma TailElements(keys: seq<string>)
    requires Sorted(keys) && keys != []
    ensures Elements(keys[1..]) == Elements(keys) - {keys[0]} && Sorted(keys[1..])
  {
    forall k | k in Elements(keys[1..]) ensures k in Elements(keys) && k != keys[0] {
      var i :| 0 <= i < |keys[1..]| && keys[1..][i] == k;
      assert keys[i + 1] == k;
      LessIsTotal(keys[0], k);
    }
    forall k | k in Elements(keys) && k != keys[0] ensures k in Elements(keys[1..]) {
      var i :| 0 <= i < |keys| && keys[i] == k;
      assert keys[1..][i - 1] == k;
    }
  }

  /** A route's slot, its method and path, and the operation id derived from it. */
  datatype Slot = Slot(key: string, base: string)

  /** Of the routes for one slot, the first is emitted. */
  function BaseOf(routes: seq<Slot>): (r: map<string, string>)
    decreases |routes|
  {
    if routes == [] then map[] else BaseOf(routes[1..])[routes[0].key := routes[0].base]
  }

  /** Ids in order of their keys: each the first free one. */
  function IdsInOrder(keys: seq<string>, bases: map<string, string>): (ids: map<string, string>)
    requires Elements(keys) <= bases.Keys && Sorted(keys)
    ensures ids.Keys == Elements(keys)
    decreases |keys|
  {
    if keys == [] then map[]
    else
      var rest, last := keys[..|keys| - 1], keys[|keys| - 1];
      InitElements(keys);
      var ids := IdsInOrder(rest, bases);
      ids[last := Free(bases[last], ids.Values)]
  }

  lemma InitElements(keys: seq<string>)
    requires keys != [] && Sorted(keys)
    ensures var rest, last := keys[..|keys| - 1], keys[|keys| - 1];
            Elements(rest) + {last} == Elements(keys) && last !in Elements(rest) && last in Elements(keys) && Sorted(rest)
  {
    var rest, last := keys[..|keys| - 1], keys[|keys| - 1];
    assert keys == rest + [last];
    forall i | 0 <= i < |rest| ensures rest[i] != last {
      LessIsTotal(last, last);
      assert Less(keys[i], keys[|keys| - 1]);
    }
  }

  /** No two operations share an id. */
  lemma {:induction false} IdsAreDistinct(keys: seq<string>, bases: map<string, string>)
    requires Elements(keys) <= bases.Keys && Sorted(keys)
    ensures var ids := IdsInOrder(keys, bases);
            IsInjective(ids)
    decreases |keys|
  {
    if keys != [] {
      InitElements(keys);
      IdsAreDistinct(keys[..|keys| - 1], bases);
      var ids := IdsInOrder(keys[..|keys| - 1], bases);
      var id := Free(bases[keys[|keys| - 1]], ids.Values);
      assert IdsInOrder(keys, bases) == ids[keys[|keys| - 1] := id];
      InjectiveMore(ids, keys[|keys| - 1], id);
    }
  }

  /** The first route of a slot gives it its base. */
  lemma {:induction false} FirstGivesBase(routes: seq<Slot>, i: nat)
    requires i < |routes| && forall j | 0 <= j < i :: routes[j].key != routes[i].key
    ensures routes[i].key in BaseOf(routes) && BaseOf(routes)[routes[i].key] == routes[i].base
    decreases |routes|
  {
    if i > 0 {
      FirstGivesBase(routes[1..], i - 1);
    }
  }

  predicate DistinctSlots(routes: seq<Slot>) {
    forall i, j | 0 <= i < j < |routes| :: routes[i].key != routes[j].key
  }

  lemma {:induction false} BaseAt(routes: seq<Slot>, k: string)
    requires DistinctSlots(routes)
    ensures k in BaseOf(routes) <==> exists i :: 0 <= i < |routes| && routes[i].key == k
    ensures forall i | 0 <= i < |routes| && routes[i].key == k :: k in BaseOf(routes) && BaseOf(routes)[k] == routes[i].base
    decreases |routes|
  {
    if routes != [] {
      BaseAt(routes[1..], k);
      if k in BaseOf(routes[1..]) {
        var i :| 0 <= i < |routes[1..]| && routes[1..][i].key == k;
        assert routes[i + 1].key == k;
      }
      forall i | 0 <= i < |routes| && routes[i].key == k ensures k in BaseOf(routes) && BaseOf(routes)[k] == routes[i].base {
        if i > 0 {
          assert routes[1..][i - 1].key == k;
        }
      }
    }
  }

  /** The order of routes with distinct slots does not matter. */
  lemma OrderOfRoutesIsIrrelevant(a: seq<Slot>, b: seq<Slot>)
    requires DistinctSlots(a) && DistinctSlots(b) && forall r :: r in a <==> r in b
    ensures BaseOf(a) == BaseOf(b)
  {
    forall k ensures (k in BaseOf(a) <==> k in BaseOf(b)) && (k in BaseOf(a) ==> BaseOf(a)[k] == BaseOf(b)[k]) {
      BaseAt(a, k);
      BaseAt(b, k);
      if k in BaseOf(a) {
        var i :| 0 <= i < |a| && a[i].key == k;
        assert a[i] in b;
      }
      if k in BaseOf(b) {
        var i :| 0 <= i < |b| && b[i].key == k;
        assert b[i] in a;
      }
    }
  }

  /** sort.Strings, on keys that are all different. */
  method SortKeys(keys: set<string>) returns (sorted: seq<string>)
    ensures Sorted(sorted) && Elements(sorted) == keys
  {
    sorted := [];
    var left := keys;
    while left != {}
      invariant left <= keys && Elements(sorted) == keys - left && Sorted(sorted)
      invariant forall k <- sorted, l <- left :: Less(k, l)
      decreases left
    {
      var least := Least(left);
      assert Elements(sorted + [least]) == Elements(sorted) + {least};
      assert keys - (left - {least}) == (keys - left) + {least};
      left := left - {least};
      sorted := sorted + [least];
    }
  }

  method Least(keys: set<string>) returns (least: string)
    requires keys != {}
    ensures least in keys && forall k <- keys :: k == least || Less(least, k)
  {
    least :| least in keys;
    var left := keys - {least};
    while left != {}
      invariant left <= keys && least in keys && forall k <- keys - left :: k == least || Less(least, k)
      decreases left
    {
      var k :| k in left;
      left := left - {k};
      LessIsTotal(k, least);
      if Less(k, least) {
        forall j | j in keys - left ensures j == k || Less(k, j) {
          if j != k && j != least {
            LessIsTransitive(k, least, j);
          }
        }
        least := k;
      }
    }
  }

  /** The first route of every slot. */
  method FirstRoutes(routes: seq<Slot>) returns (byKey: map<string, string>)
    ensures byKey == BaseOf(routes)
  {
    byKey := map[];
    var i := 0;
    while i < |routes|
      invariant 0 <= i <= |routes| && BaseOf(routes) == BaseOf(routes[i..]) + byKey
    {
      assert routes[i..][1..] == routes[i + 1..];
      if routes[i].key !in byKey {
        byKey := byKey[routes[i].key := routes[i].base];
      }
      i := i + 1;
    }
    assert routes[i..] == [];
  }

  lemma NextId(keys: seq<string>, bases: map<string, string>, i: nat)
    requires i < |keys| && Elements(keys) <= bases.Keys && Sorted(keys)
    ensures Elements(keys[..i]) <= bases.Keys && Elements(keys[..i + 1]) <= bases.Keys && Sorted(keys[..i]) && Sorted(keys[..i + 1])
    ensures var ids := IdsInOrder(keys[..i], bases);
            keys[i] in bases && IdsInOrder(keys[..i + 1], bases) == ids[keys[i] := Free(bases[keys[i]], ids.Values)] && keys[i] !in ids
  {
    var next := keys[..i + 1];
    assert next[..i] == keys[..i] && next[i] == keys[i] && keys[i] in keys;
    InitElements(next);
    assert Elements(next) <= Elements(keys) by {
      assert forall k <- next :: k in keys;
    }
    assert Sorted(next);
    hide Sorted, Elements, Free, Less;
  }

  /** Later slots change no id. */
  lemma {:induction false} EarlierIds(keys: seq<string>, bases: map<string, string>, i: nat, j: nat)
    requires Elements(keys) <= bases.Keys && Sorted(keys) && j < i <= |keys|
    ensures Elements(keys[..i]) <= bases.Keys && Sorted(keys[..i])
    ensures keys[j] in IdsInOrder(keys, bases) && keys[j] in IdsInOrder(keys[..i], bases)
    ensures IdsInOrder(keys, bases)[keys[j]] == IdsInOrder(keys[..i], bases)[keys[j]]
    decreases |keys|
  {
    hide IdsInOrder, Less, Free;
    var n := |keys| - 1;
    assert keys[..i][j] == keys[j] && keys[j] in Elements(keys) && keys[..i][j] in Elements(keys[..i]);
    if i <= n {
      NextId(keys, bases, n);
      assert keys[..n + 1] == keys && keys[..n][..i] == keys[..i] && keys[..n][j] == keys[j];
      EarlierIds(keys[..n], bases, i, j);
      assert keys[n] !in IdsInOrder(keys[..n], bases) && keys[j] in IdsInOrder(keys[..n], bases);
    } else {
      assert keys[..i] == keys;
    }
  }

  function IdsBefore(keys: seq<string>, ids: map<string, string>, i: nat): set<string>
    requires i <= |keys| && forall k <- keys :: k in ids
  {
    set j | 0 <= j < i :: ids[keys[j]]
  }

  lemma ValuesAreIds(keys: seq<string>, ids: map<string, string>)
    requires ids.Keys == Elements(keys)
    ensures ids.Values == IdsBefore(keys, ids, |keys|)
  {
    forall name | name in ids.Values ensures name in IdsBefore(keys, ids, |keys|) {
      var k :| k in ids && ids[k] == name;
      assert k in Elements(keys);
      var j :| 0 <= j < |keys| && keys[j] == k;
    }
  }

  /** Every id is the slot's own base, else the base and the least number, that no slot before it took. */
  lemma IdsAreNext(keys: seq<string>, bases: map<string, string>, i: nat)
    requires Elements(keys) <= bases.Keys && Sorted(keys) && i < |keys|
    ensures var ids := IdsInOrder(keys, bases);
            (forall k <- keys :: k in ids) && keys[i] in bases && IsNext(bases[keys[i]], IdsBefore(keys, ids, i), ids[keys[i]])
  {
    hide IsNext, Free, Sorted, IdsInOrder, Less, IdsBefore;
    var ids := IdsInOrder(keys, bases);
    assert forall k <- keys :: k in Elements(keys);
    NextId(keys, bases, i);
    var before := IdsInOrder(keys[..i], bases);
    EarlierIds(keys, bases, i + 1, i);
    FreeIsNext(bases[keys[i]], before.Values);
    ValuesAreIds(keys[..i], before);
    forall j | 0 <= j < i ensures ids[keys[j]] == before[keys[..i][j]] {
      EarlierIds(keys, bases, i, j);
    }
    SameBefore(keys, ids, before, i);
  }

  lemma SameBefore(keys: seq<string>, ids: map<string, string>, before: map<string, string>, i: nat)
    requires i <= |keys| && (forall k <- keys :: k in ids) && (forall k <- keys[..i] :: k in before)
    requires forall j | 0 <= j < i :: keys[..i][j] in before && ids[keys[j]] == before[keys[..i][j]]
    ensures IdsBefore(keys, ids, i) == IdsBefore(keys[..i], before, i)
  {
  }

  /** One id for every slot, whatever order the routes come in. */
  method AssignOperationIds(routes: seq<Slot>) returns (ids: map<string, string>, ghost keys: seq<string>)
    ensures Sorted(keys) && Elements(keys) == BaseOf(routes).Keys && ids == IdsInOrder(keys, BaseOf(routes))
    ensures IsInjective(ids)
  {
    var byKey := FirstRoutes(routes);
    var sorted := SortKeys(byKey.Keys);
    keys := sorted;
    ids := map[];
    var used: set<string> := {};
    var i := 0;
    assert sorted[..|sorted|] == sorted;
    while i < |sorted|
      invariant 0 <= i <= |sorted| && Elements(sorted[..i]) <= byKey.Keys && Sorted(sorted[..i])
      invariant ids == IdsInOrder(sorted[..i], byKey) && used == ids.Values
    {
      NextId(sorted, byKey, i);
      var id := FindFree(byKey[sorted[i]], used);
      ValuesMore(ids, sorted[i], id);
      hide IdsInOrder, Elements, Sorted, Free;
      used := used + {id};
      ids := ids[sorted[i] := id];
      i := i + 1;
    }
    IdsAreDistinct(sorted, byKey);
  }

  /** So two listings of the same routes get the same ids. */
  lemma IdsIgnoreOrder(a: seq<Slot>, b: seq<Slot>, ka: seq<string>, kb: seq<string>)
    requires DistinctSlots(a) && DistinctSlots(b) && forall r :: r in a <==> r in b
    requires Sorted(ka) && Sorted(kb) && Elements(ka) == BaseOf(a).Keys && Elements(kb) == BaseOf(b).Keys
    ensures ka == kb && IdsInOrder(ka, BaseOf(a)) == IdsInOrder(kb, BaseOf(b))
  {
    OrderOfRoutesIsIrrelevant(a, b);
    SortedIsUnique(ka, kb);
  }
}
