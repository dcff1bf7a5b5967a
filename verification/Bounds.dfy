/**
 Collapsing the rules of a validate tag onto one pair of schema bounds: a value
 meets them exactly when it meets every rule, whatever order they come in, and
 where machine arithmetic stands in the way of that.
 */
module Bounds {
  import opened Wrappers

  const MIN_INT: int := -0x8000_0000_0000_0000
  const MAX_INT: int := 0x7fff_ffff_ffff_ffff
  const EXACT: int := 0x20_0000_0000_0000 // 2^53: every integer up to it is a float64

  // ----- float64 values of integers

  /** The gap between the float64 values around a. */
  function Gap(a: nat): (u: nat)
    ensures u > 0
  {
    if a < EXACT then 1 else 2 * Gap(a / 2)
  }

  /** Round to nearest, ties to even. */
  function RoundUp(a: nat): nat {
    var u := Gap(a);
    var q, r := a / u, a % u;
    if 2 * r < u || (2 * r == u && q % 2 == 0) then q * u else (q + 1) * u
  }

  function Float(n: int): real {
    if n >= 0 then RoundUp(n) as real else -(RoundUp(-n) as real)
  }

  lemma SmallIsExact(n: int)
    requires -EXACT <= n <= EXACT
    ensures Float(n) == n as real
  {
    var a: nat := if n >= 0 then n else -n;
    if a == EXACT {
      assert Gap(a) == 2 * Gap(a / 2) == 2;
    }
  }

  // ----- numeric bounds

  datatype Number = Int(n: int) | Fraction(x: real)

  datatype Bound = Bound(value: Number, exclusive: bool)

  /** What a bound stands for. */
  function Meaning(v: Number): real {
    match v
    case Int(n) => n as real
    case Fraction(x) => x
  }

  /** What the document shows. */
  function Shown(v: Number): real {
    match v
    case Int(n) => Float(n)
    case Fraction(x) => x
  }

  /** Integers compare exactly, anything involving a fraction as float64. */
  function Compare(a: Number, b: Number): int {
    if a.Int? && b.Int? then (if a.n < b.n then -1 else if a.n == b.n then 0 else 1)
    else if Shown(a) < Shown(b) then -1
    else if Shown(a) == Shown(b) then 0
    else 1
  }

  function MergeOne(current: Option<Bound>, cand: Bound, lower: bool): Option<Bound> {
    match current
    case None => Some(cand)
    case Some(b) =>
      var order := Compare(cand.value, b.value);
      if order == 0 then Some(Bound(b.value, b.exclusive || cand.exclusive))
      else if (lower && order > 0) || (!lower && order < 0) then Some(cand)
      else current
  }

  function Merge(bounds: seq<Bound>, lower: bool): Option<Bound> {
    if bounds == [] then None else MergeOne(Merge(bounds[..|bounds| - 1], lower), bounds[|bounds| - 1], lower)
  }

  predicate Meets(x: real, b: Bound, lower: bool) {
    if lower then (if b.exclusive then Meaning(b.value) < x else Meaning(b.value) <= x)
    else (if b.exclusive then x < Meaning(b.value) else x <= Meaning(b.value))
  }

  predicate MeetsMerged(x: real, b: Option<Bound>, lower: bool) {
    b.Some? ==> Meets(x, b.value, lower)
  }

  predicate ComparesRight(a: Number, b: Number) {
    Compare(a, b) == if Meaning(a) < Meaning(b) then -1 else if Meaning(a) == Meaning(b) then 0 else 1
  }

  /** Any two of these numbers compare as what they stand for. */
  predicate CompareRight(values: set<Number>) {
    forall a <- values, b <- values :: ComparesRight(a, b)
  }

  function Values(bounds: seq<Bound>): set<Number> {
    set b | b in bounds :: b.value
  }

  /** Integers alone do, and so does anything where no integer is too large for a float64. */
  lemma WholeOrSmallCompareRight(values: set<Number>)
    requires (forall v <- values :: v.Int?) || (forall v <- values :: v.Int? ==> -EXACT <= v.n <= EXACT)
    ensures CompareRight(values)
  {
    forall a, b | a in values && b in values ensures ComparesRight(a, b) {
      if a.Int? && -EXACT <= a.n <= EXACT {
        SmallIsExact(a.n);
      }
      if b.Int? && -EXACT <= b.n <= EXACT {
        SmallIsExact(b.n);
      }
    }
  }

  lemma {:induction false} MergeKeepsOne(bounds: seq<Bound>, lower: bool)
    ensures bounds != [] <==> Merge(bounds, lower).Some?
    ensures bounds != [] ==> exists b <- bounds :: b.value == Merge(bounds, lower).value.value
    decreases |bounds|
  {
    if bounds != [] {
      var rest := bounds[..|bounds| - 1];
      MergeKeepsOne(rest, lower);
      assert bounds[|bounds| - 1] in bounds;
      if rest != [] {
        var b :| b in rest && b.value == Merge(rest, lower).value.value;
        assert b in bounds;
      }
    }
  }

  /** A number meets the merged bound if and only if it meets every rule. */
  lemma {:induction false} MergeIsExact(bounds: seq<Bound>, lower: bool, x: real)
    requires CompareRight(Values(bounds))
    ensures MeetsMerged(x, Merge(bounds, lower), lower) <==> forall b <- bounds :: Meets(x, b, lower)
    decreases |bounds|
  {
    if bounds != [] {
      var rest, last := bounds[..|bounds| - 1], bounds[|bounds| - 1];
      assert forall b <- rest :: b in bounds;
      assert last in bounds && forall b <- bounds :: b in rest || b == last;
      MergeIsExact(rest, lower, x);
      MergeKeepsOne(rest, lower);
      if rest != [] {
        var b :| b in rest && b.value == Merge(rest, lower).value.value;
        assert b.value in Values(bounds) && last.value in Values(bounds) && ComparesRight(last.value, b.value);
      }
    }
  }

  /** Bounds that admit the same numbers are the same bound. */
  lemma SameNumbersSameBound(a: Bound, b: Bound, lower: bool)
    requires forall x: real :: Meets(x, a, lower) <==> Meets(x, b, lower)
    ensures Meaning(a.value) == Meaning(b.value) && a.exclusive == b.exclusive
  {
    var m, n := Meaning(a.value), Meaning(b.value);
    assert Meets(m, a, lower) == Meets(m, b, lower) && Meets(n, a, lower) == Meets(n, b, lower);
    var mid := (m + n) / 2.0;
    assert Meets(mid, a, lower) == Meets(mid, b, lower);
  }

  /** The order of the rules does not matter. */
  lemma MergeIgnoresOrder(a: seq<Bound>, b: seq<Bound>, lower: bool)
    requires CompareRight(Values(a)) && (forall x :: x in a <==> x in b) && a != []
    ensures Merge(a, lower).Some? && Merge(b, lower).Some?
    ensures Meaning(Merge(a, lower).value.value) == Meaning(Merge(b, lower).value.value)
    ensures Merge(a, lower).value.exclusive == Merge(b, lower).value.exclusive
  {
    assert a[0] in b;
    assert Values(b) == Values(a);
    MergeKeepsOne(a, lower);
    MergeKeepsOne(b, lower);
    forall x: real ensures Meets(x, Merge(a, lower).value, lower) <==> Meets(x, Merge(b, lower).value, lower) {
      MergeIsExact(a, lower, x);
      MergeIsExact(b, lower, x);
    }
    SameNumbersSameBound(Merge(a, lower).value, Merge(b, lower).value, lower);
  }

  /** The document shows the merged bound exactly, unless it is an integer with no float64 value. */
  lemma ShownExactly(v: Number)
    requires v.Int? ==> -EXACT <= v.n <= EXACT
    ensures Shown(v) == Meaning(v)
  {
    if v.Int? {
      SmallIsExact(v.n);
    }
  }

  const FLOAT_BOUND := Bound(Fraction(EXACT as real), false)
  const INT_BOUND := Bound(Int(EXACT + 1), false)

  /** Beyond 2^53 a mixed comparison is not exact, and a rule is lost or kept by its place. */
  lemma MixedComparisonLosesRule()
    ensures Merge([FLOAT_BOUND, INT_BOUND], true) == Some(FLOAT_BOUND)
    ensures Merge([INT_BOUND, FLOAT_BOUND], true) == Some(INT_BOUND)
    ensures MeetsMerged(EXACT as real, Some(FLOAT_BOUND), true) && !Meets(EXACT as real, INT_BOUND, true)
    ensures !ComparesRight(FLOAT_BOUND.value, INT_BOUND.value)
  {
    assert (EXACT + 1) / 2 == EXACT / 2 && Gap(EXACT / 2) == 1;
    assert Gap(EXACT + 1) == 2 * Gap((EXACT + 1) / 2) == 2;
    assert Float(EXACT + 1) == EXACT as real;
    MergeTwo(FLOAT_BOUND, INT_BOUND, true);
    MergeTwo(INT_BOUND, FLOAT_BOUND, true);
  }

  lemma MergeTwo(a: Bound, b: Bound, lower: bool)
    ensures Merge([a, b], lower) == MergeOne(Some(a), b, lower)
  {
    assert [a, b][..1] == [a] && [a][..0] == [];
    assert Merge([], lower) == None && Merge([a], lower) == Some(a);
  }

  // ----- exactly when

  ghost predicate MergesExactly(bounds: seq<Bound>, lower: bool) {
    forall x: real :: MeetsMerged(x, Merge(bounds, lower), lower) <==> forall b <- bounds :: Meets(x, b, lower)
  }

  ghost predicate AlwaysMergesExactly(values: set<Number>, lower: bool) {
    forall bounds: seq<Bound> | Values(bounds) <= values :: MergesExactly(bounds, lower)
  }

  /** r is the stricter of a and b. */
  predicate Strict(a: Bound, b: Bound, r: Bound, lower: bool) {
    var m, n := Meaning(a.value), Meaning(b.value);
    if m == n then Meaning(r.value) == m && r.exclusive == (a.exclusive || b.exclusive)
    else if (m < n) == lower then Meaning(r.value) == n else Meaning(r.value) == m
  }

  lemma ExactPair(a: Bound, b: Bound, lower: bool)
    requires MergesExactly([a, b], lower)
    ensures Strict(a, b, MergeOne(Some(a), b, lower).value, lower)
  {
    MergeTwo(a, b, lower);
    var r := MergeOne(Some(a), b, lower).value;
    var both := [a, b];
    assert both[0] == a && both[1] == b;
    forall x: real ensures Meets(x, r, lower) <==> Meets(x, a, lower) && Meets(x, b, lower) {
      assert MeetsMerged(x, Merge(both, lower), lower) <==> forall c <- both :: Meets(x, c, lower);
    }
    var m, n := Meaning(a.value), Meaning(b.value);
    var mid := (m + n) / 2.0;
    assert Meets(m, r, lower) <==> Meets(m, a, lower) && Meets(m, b, lower);
    assert Meets(n, r, lower) <==> Meets(n, a, lower) && Meets(n, b, lower);
    assert Meets(mid, r, lower) <==> Meets(mid, a, lower) && Meets(mid, b, lower);
  }

  /** Where two numbers compare wrong, one of four pairs of rules on them merges wrong. */
  lemma ExactPairsCompareRight(a: Number, b: Number, lower: bool)
    requires AlwaysMergesExactly({a, b}, lower)
    ensures ComparesRight(a, b)
  {
    forall c, d | c in {a, b} && d in {a, b}
      ensures Strict(Bound(c, true), Bound(d, false), MergeOne(Some(Bound(c, true)), Bound(d, false), lower).value, lower)
    {
      var both := [Bound(c, true), Bound(d, false)];
      assert Values(both) <= {a, b};
      ExactPair(both[0], both[1], lower);
    }
    hide MergesExactly;
    assert Strict(Bound(a, true), Bound(b, false), MergeOne(Some(Bound(a, true)), Bound(b, false), lower).value, lower);
    assert Strict(Bound(b, true), Bound(a, false), MergeOne(Some(Bound(b, true)), Bound(a, false), lower).value, lower);
  }

  /** Rules on these numbers merge exactly, however many there are and in any order, if and only if any two compare right. */
  lemma MergeExactIffCompareRight(values: set<Number>, lower: bool)
    ensures AlwaysMergesExactly(values, lower) <==> CompareRight(values)
  {
    if CompareRight(values) {
      forall bounds: seq<Bound>, x: real | Values(bounds) <= values
        ensures MeetsMerged(x, Merge(bounds, lower), lower) <==> forall b <- bounds :: Meets(x, b, lower)
      {
        MergeIsExact(bounds, lower, x);
      }
    }
    if AlwaysMergesExactly(values, lower) {
      forall a, b | a in values && b in values ensures ComparesRight(a, b) {
        ExactPairsCompareRight(a, b, lower);
      }
    }
  }

  // ----- lengths of strings

  datatype RuleKind = Min | Max | Len | Gt | Gte | Lt | Lte

  /** A length rule with its int64 argument. */
  datatype Rule = Rule(kind: RuleKind, n: int)

  function Wrap(n: int): int {
    if n > MAX_INT then n - 0x1_0000_0000_0000_0000
    else if n < MIN_INT then n + 0x1_0000_0000_0000_0000
    else n
  }

  function ClampNonNeg(n: int): int {
    if n < 0 then 0 else n
  }

  /** What the validator accepts. */
  predicate Accepts(r: Rule, length: nat) {
    match r.kind
    case Min => length >= r.n
    case Max => length <= r.n
    case Len => length == r.n
    case Gt => length > r.n
    case Gte => length >= r.n
    case Lt => length < r.n
    case Lte => length <= r.n
  }

  function MinLengthOf(r: Rule): Option<int> {
    match r.kind
    case Min => Some(r.n)
    case Len => Some(r.n)
    case Gt => Some(ClampNonNeg(Wrap(r.n + 1)))
    case Gte => Some(ClampNonNeg(r.n))
    case _ => None
  }

  function MaxLengthOf(r: Rule): Option<int> {
    match r.kind
    case Max => Some(r.n)
    case Len => Some(r.n)
    case Lt => Some(ClampNonNeg(Wrap(r.n - 1)))
    case Lte => Some(ClampNonNeg(r.n))
    case _ => None
  }

  function KeepLarger(current: Option<int>, n: Option<int>): Option<int> {
    if n.None? then current else if current.None? || n.value > current.value then n else current
  }

  function KeepSmaller(current: Option<int>, n: Option<int>): Option<int> {
    if n.None? then current else if current.None? || n.value < current.value then n else current
  }

  datatype Lengths = Lengths(min: Option<int>, max: Option<int>)

  function LengthsOf(rules: seq<Rule>): Lengths {
    if rules == [] then Lengths(None, None)
    else
      var before, r := LengthsOf(rules[..|rules| - 1]), rules[|rules| - 1];
      Lengths(KeepLarger(before.min, MinLengthOf(r)), KeepSmaller(before.max, MaxLengthOf(r)))
  }

  predicate Within(b: Lengths, length: nat) {
    (b.min.Some? ==> b.min.value <= length) && (b.max.Some? ==> length <= b.max.value)
  }

  predicate IsInt64(r: Rule) {
    MIN_INT <= r.n <= MAX_INT
  }

  /** A rule no length meets, and whose bound, clamped or wrapped, still admits one. */
  predicate IsLoose(r: Rule) {
    (r.kind == Lt && r.n <= 0) || (r.kind == Lte && r.n < 0) || (r.kind == Gt && r.n == MAX_INT)
  }

  predicate AdmitsOne(r: Rule, length: nat) {
    Within(Lengths(MinLengthOf(r), MaxLengthOf(r)), length)
  }

  lemma {:induction false} WithinEach(rules: seq<Rule>, length: nat)
    ensures Within(LengthsOf(rules), length) <==> forall r <- rules :: AdmitsOne(r, length)
    decreases |rules|
  {
    if rules != [] {
      var rest, last := rules[..|rules| - 1], rules[|rules| - 1];
      WithinEach(rest, length);
      assert last in rules && (forall r <- rest :: r in rules) && forall r <- rules :: r in rest || r == last;
      var before, after := LengthsOf(rest), LengthsOf(rules);
      assert Within(after, length) <==> Within(before, length) && AdmitsOne(last, length);
    }
  }

  /** A length a string can have: it is an int. */
  predicate IsLength(length: nat) {
    length <= MAX_INT
  }

  /** The bounds never reject a length the rules accept. */
  lemma LengthsRejectNothing(rules: seq<Rule>, length: nat)
    requires (forall r <- rules :: IsInt64(r) && Accepts(r, length)) && IsLength(length)
    ensures Within(LengthsOf(rules), length)
  {
    WithinEach(rules, length);
  }

  lemma OneRuleIsExact(r: Rule, length: nat)
    requires IsInt64(r) && IsLength(length)
    ensures Accepts(r, length) ==> AdmitsOne(r, length) && !IsLoose(r)
    ensures !IsLoose(r) ==> (Accepts(r, length) <==> AdmitsOne(r, length))
  {
  }

  predicate AllowsNone(s: Rule) {
    MaxLengthOf(s).Some? && MaxLengthOf(s).value < 0
  }

  /** The bounds of r and s, clamped and wrapped as they are, leave no length between them. */
  predicate Exclude(r: Rule, s: Rule) {
    MinLengthOf(r).Some? && MaxLengthOf(s).Some? && MinLengthOf(r).value > MaxLengthOf(s).value
  }

  /** One rule alone, or one against another, leaves no length. */
  predicate Clash(rules: seq<Rule>) {
    (exists s <- rules :: AllowsNone(s)) || (exists r <- rules, s <- rules :: Exclude(r, s))
  }

  lemma {:induction false} MinimumIsARule(rules: seq<Rule>)
    ensures LengthsOf(rules).min.Some? ==> exists r <- rules :: MinLengthOf(r) == LengthsOf(rules).min
    ensures forall r <- rules :: MinLengthOf(r).Some? ==> LengthsOf(rules).min.Some? && LengthsOf(rules).min.value >= MinLengthOf(r).value
    decreases |rules|
  {
    if rules != [] {
      var rest, last := rules[..|rules| - 1], rules[|rules| - 1];
      MinimumIsARule(rest);
      assert last in rules && (forall r <- rest :: r in rules) && forall r <- rules :: r in rest || r == last;
    }
  }

  /** The bounds admit no length exactly where the rules clash. */
  lemma NoneIffClash(rules: seq<Rule>)
    requires forall r <- rules :: IsInt64(r)
    ensures (forall length: nat | IsLength(length) :: !Within(LengthsOf(rules), length)) <==> Clash(rules)
  {
    forall length: nat ensures Within(LengthsOf(rules), length) <==> forall r <- rules :: AdmitsOne(r, length) {
      WithinEach(rules, length);
    }
    if Clash(rules) {
      forall length: nat ensures !Within(LengthsOf(rules), length) {
        if s :| s in rules && AllowsNone(s) {
          assert !AdmitsOne(s, length);
        } else {
          var r, s :| r in rules && s in rules && Exclude(r, s);
          assert !AdmitsOne(r, length) || !AdmitsOne(s, length);
        }
      }
    } else {
      MinimumIsARule(rules);
      var min := LengthsOf(rules).min;
      var length: nat := if min.Some? && min.value > 0 then min.value else 0;
      forall s | s in rules ensures AdmitsOne(s, length) {
        assert !AllowsNone(s);
        if min.Some? {
          var r :| r in rules && MinLengthOf(r) == min;
          assert !Exclude(r, s);
        }
      }
      assert IsLength(length) && Within(LengthsOf(rules), length);
    }
  }

  /** They admit exactly the lengths the rules accept, if and only if no rule is loose or the rules clash anyway. */
  lemma LengthsAreExact(rules: seq<Rule>)
    requires forall r <- rules :: IsInt64(r)
    ensures (forall length: nat | IsLength(length) :: Within(LengthsOf(rules), length) <==> forall r <- rules :: Accepts(r, length))
       <==> (forall r <- rules :: !IsLoose(r)) || Clash(rules)
  {
    NoneIffClash(rules);
    forall length: nat | IsLength(length)
      ensures (forall r <- rules :: Accepts(r, length)) ==> Within(LengthsOf(rules), length) && forall r <- rules :: !IsLoose(r)
      ensures (forall r <- rules :: !IsLoose(r)) ==> (Within(LengthsOf(rules), length) <==> forall r <- rules :: Accepts(r, length))
    {
      WithinEach(rules, length);
      forall r | r in rules
        ensures Accepts(r, length) ==> AdmitsOne(r, length) && !IsLoose(r)
        ensures !IsLoose(r) ==> (Accepts(r, length) <==> AdmitsOne(r, length))
      {
        OneRuleIsExact(r, length);
      }
    }
  }

  /** The order of the rules does not matter here either. */
  lemma LengthsIgnoreOrder(a: seq<Rule>, b: seq<Rule>, length: nat)
    requires forall r :: r in a <==> r in b
    ensures Within(LengthsOf(a), length) <==> Within(LengthsOf(b), length)
  {
    WithinEach(a, length);
    WithinEach(b, length);
  }

  // ----- the set a tag fills, key by key

  class ConstraintSet {
    var minimum: Option<Bound>
    var maximum: Option<Bound>
    var lengths: Lengths

    constructor ()
      ensures minimum.None? && maximum.None? && lengths == Lengths(None, None)
    {
      minimum, maximum, lengths := None, None, Lengths(None, None);
    }

    method SetMinimum(b: Bound)
      modifies this
      ensures minimum == MergeOne(old(minimum), b, true) && maximum == old(maximum) && lengths == old(lengths)
    {
      if minimum.None? {
        minimum := Some(b);
        return;
      }
      var order := Compare(b.value, minimum.value.value);
      if order == 0 {
        minimum := Some(Bound(minimum.value.value, minimum.value.exclusive || b.exclusive));
      } else if order > 0 {
        minimum := Some(b);
      }
    }

    method SetMaximum(b: Bound)
      modifies this
      ensures maximum == MergeOne(old(maximum), b, false) && minimum == old(minimum) && lengths == old(lengths)
    {
      if maximum.None? {
        maximum := Some(b);
        return;
      }
      var order := Compare(b.value, maximum.value.value);
      if order == 0 {
        maximum := Some(Bound(maximum.value.value, maximum.value.exclusive || b.exclusive));
      } else if order < 0 {
        maximum := Some(b);
      }
    }

    method SetMinLength(n: int)
      modifies this
      ensures lengths == old(lengths).(min := KeepLarger(old(lengths).min, Some(n))) && minimum == old(minimum) && maximum == old(maximum)
    {
      if lengths.min.None? || n > lengths.min.value {
        lengths := lengths.(min := Some(n));
      }
    }

    method SetMaxLength(n: int)
      modifies this
      ensures lengths == old(lengths).(max := KeepSmaller(old(lengths).max, Some(n))) && minimum == old(minimum) && maximum == old(maximum)
    {
      if lengths.max.None? || n < lengths.max.value {
        lengths := lengths.(max := Some(n));
      }
    }

    /** One length rule of a string field. */
    method ApplyLengthRule(r: Rule)
      modifies this
      ensures lengths == Lengths(KeepLarger(old(lengths).min, MinLengthOf(r)), KeepSmaller(old(lengths).max, MaxLengthOf(r)))
      ensures minimum == old(minimum) && maximum == old(maximum)
    {
      match r.kind {
        case Min => SetMinLength(r.n);
        case Max => SetMaxLength(r.n);
        case Len => SetMinLength(r.n); SetMaxLength(r.n);
        case Gt => SetMinLength(ClampNonNeg(Wrap(r.n + 1)));
        case Gte => SetMinLength(ClampNonNeg(r.n));
        case Lt => SetMaxLength(ClampNonNeg(Wrap(r.n - 1)));
        case Lte => SetMaxLength(ClampNonNeg(r.n));
      }
    }
  }

  /** The lengths a string field's tag amounts to: nothing acceptable is rejected. */
  method LengthsFor(rules: seq<Rule>) returns (lengths: Lengths)
    requires forall r <- rules :: IsInt64(r)
    ensures forall length: nat | IsLength(length) && (forall r <- rules :: Accepts(r, length)) :: Within(lengths, length)
    ensures (forall r <- rules :: !IsLoose(r)) ==>
              forall length: nat | IsLength(length) && Within(lengths, length) :: forall r <- rules :: Accepts(r, length)
  {
    var s := new ConstraintSet();
    var i := 0;
    while i < |rules|
      invariant 0 <= i <= |rules| && s.lengths == LengthsOf(rules[..i])
    {
      assert rules[..i + 1][..i] == rules[..i];
      s.ApplyLengthRule(rules[i]);
      i := i + 1;
    }
    assert rules[..i] == rules;
    lengths := s.lengths;
    LengthsAreExact(rules);
    forall length: nat | IsLength(length) && (forall r <- rules :: Accepts(r, length)) ensures Within(lengths, length) {
      LengthsRejectNothing(rules, length);
    }
  }

  /** The bounds a numeric field's tag amounts to. */
  method BoundsFor(lower: seq<Bound>, upper: seq<Bound>) returns (minimum: Option<Bound>, maximum: Option<Bound>)
    requires CompareRight(Values(lower)) && CompareRight(Values(upper))
    ensures forall x: real :: MeetsMerged(x, minimum, true) && MeetsMerged(x, maximum, false)
                         <==> (forall b <- lower :: Meets(x, b, true)) && (forall b <- upper :: Meets(x, b, false))
  {
    var s := new ConstraintSet();
    var i := 0;
    while i < |lower|
      invariant 0 <= i <= |lower| && s.minimum == Merge(lower[..i], true) && s.maximum == None
    {
      assert lower[..i + 1][..i] == lower[..i];
      s.SetMinimum(lower[i]);
      i := i + 1;
    }
    assert lower[..i] == lower;
    i := 0;
    while i < |upper|
      invariant 0 <= i <= |upper| && s.minimum == Merge(lower, true) && s.maximum == Merge(upper[..i], false)
    {
      assert upper[..i + 1][..i] == upper[..i];
      s.SetMaximum(upper[i]);
      i := i + 1;
    }
    assert upper[..i] == upper;
    minimum, maximum := s.minimum, s.maximum;
    forall x: real
      ensures MeetsMerged(x, minimum, true) && MeetsMerged(x, maximum, false)
         <==> (forall b <- lower :: Meets(x, b, true)) && (forall b <- upper :: Meets(x, b, false))
    {
      MergeIsExact(lower, true, x);
      MergeIsExact(upper, false, x);
    }
  }
}
