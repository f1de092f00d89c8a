/** From an invoice line to tonnes of CO2e: which rule applies, which basis and factor it
    resolves to, and the rounding of the result (src/erpsync/rules/engine.py,
    src/erpsync/quantity/resolver.py, src/erpsync/emissions/calculator.py, src/core/carbon.py). */
module Carbon {
  import opened Prelude

  // -- rounding --------------------------------------------------------------------------

  const MICRO := 1000000.0

  /** To the nearest integer, a half away from zero. */
  function HalfUp(x: real): int {
    if x >= 0.0 then (x + 0.5).Floor else -((0.5 - x).Floor)
  }

  /** To as many decimal places as the scale has zeros: what a numeric column keeps. */
  function Places(x: real, scale: real): real
    requires scale > 0.0
  {
    HalfUp(x * scale) as real / scale
  }

  /** Six decimal places. */
  function Quantise(x: real): real {
    HalfUp(x * MICRO) as real / MICRO
  }

  lemma HalfUpOfWhole(n: int)
    ensures HalfUp(n as real) == n
  {
  }

  /** A quantised figure fits its column. */
  lemma QuantisedTwice(x: real)
    ensures Quantise(Quantise(x)) == Quantise(x)
  {
    var n := HalfUp(x * MICRO);
    assert (n as real / MICRO) * MICRO == n as real;
    HalfUpOfWhole(n);
  }

  /** kgCO2e per unit times units, in tonnes. */
  function Tco2e(units: real, factor: real): real {
    Quantise(units * factor / 1000.0)
  }

  function Distance(x: real, y: real): real {
    if x >= y then x - y else y - x
  }

  lemma HalfUpWithinHalf(x: real)
    ensures HalfUp(x) as real - 0.5 <= x <= HalfUp(x) as real + 0.5
  {
  }

  lemma NoIntegerNearer(x: real, q: int, n: int)
    requires q as real - 0.5 <= x <= q as real + 0.5
    ensures Distance(q as real, x) <= Distance(n as real, x)
  {
    if n > q {
      assert n as real >= q as real + 1.0;
    } else if n < q {
      assert n as real <= q as real - 1.0;
    }
  }

  lemma HalfUpIsNearest(x: real, n: int)
    ensures Distance(HalfUp(x) as real, x) <= 0.5
    ensures Distance(HalfUp(x) as real, x) <= Distance(n as real, x)
  {
    HalfUpWithinHalf(x);
    NoIntegerNearer(x, HalfUp(x), n);
  }

  lemma HalfUpMonotone(x: real, y: real)
    requires x <= y
    ensures HalfUp(x) <= HalfUp(y)
  {
  }

  lemma HalfUpOdd(x: real)
    ensures HalfUp(-x) == -HalfUp(x)
  {
  }

  lemma ScaleOrder(x: real, y: real)
    ensures x <= y <==> x * MICRO <= y * MICRO
  {
  }

  /** The result is a whole number of micro-tonnes within half of one of the exact value,
      and none is nearer. */
  lemma QuantiseIsNearest(x: real, n: int)
    ensures Distance(Quantise(x), x) * MICRO <= 0.5
    ensures Distance(Quantise(x), x) <= Distance(n as real / MICRO, x)
  {
    HalfUpIsNearest(x * MICRO, n);
    var q := HalfUp(x * MICRO) as real;
    assert Distance(q / MICRO, x) * MICRO == Distance(q, x * MICRO);
    assert Distance(n as real / MICRO, x) * MICRO == Distance(n as real, x * MICRO);
    ScaleOrder(Distance(q / MICRO, x), Distance(n as real / MICRO, x));
  }

  lemma MulOrder(x: real, y: real, f: real)
    requires x <= y && f >= 0.0
    ensures x * f <= y * f
  {
    assert (y - x) * f >= 0.0;
    assert y * f == x * f + (y - x) * f;
  }

  lemma QuantiseOdd(x: real)
    ensures Quantise(-x) == -Quantise(x)
  {
    HalfUpOdd(x * MICRO);
    assert (-x) * MICRO == -(x * MICRO);
  }

  lemma QuantiseMonotone(x: real, y: real)
    requires x <= y
    ensures Quantise(x) <= Quantise(y)
  {
    HalfUpMonotone(x * MICRO, y * MICRO);
  }

  /** Within half a micro-tonne of the exact value. */
  lemma Tco2eIsNear(units: real, factor: real)
    ensures Distance(Tco2e(units, factor), units * factor / 1000.0) * MICRO <= 0.5
  {
    QuantiseIsNearest(units * factor / 1000.0, 0);
  }

  /** A reversal is the exact opposite. */
  lemma Tco2eIsOdd(units: real, factor: real)
    ensures Tco2e(-units, factor) == -Tco2e(units, factor)
  {
    QuantiseOdd(units * factor / 1000.0);
    assert (-units) * factor == -(units * factor);
    assert (-(units * factor)) / 1000.0 == -(units * factor / 1000.0);
  }

  /** More units never weigh less, for a factor that is not negative. */
  lemma Tco2eIsMonotone(units: real, more: real, factor: real)
    requires factor >= 0.0 && units <= more
    ensures Tco2e(units, factor) <= Tco2e(more, factor)
  {
    MulOrder(units, more, factor);
    QuantiseMonotone(units * factor / 1000.0, more * factor / 1000.0);
  }

  /** A batch: units and factor of every line. */
  function RoundedTotal(lines: seq<(real, real)>): real {
    if lines == [] then 0.0 else RoundedTotal(lines[..|lines| - 1]) + Tco2e(lines[|lines| - 1].0, lines[|lines| - 1].1)
  }

  lemma {:induction false} RoundedAppend(lines: seq<(real, real)>, x: (real, real))
    ensures RoundedTotal(lines + [x]) == RoundedTotal(lines) + Tco2e(x.0, x.1)
  {
    assert (lines + [x])[..|lines|] == lines;
  }

  function Exact(units: real, factor: real): real {
    units * factor / 1000.0
  }

  function ExactTotal(lines: seq<(real, real)>): real {
    if lines == [] then 0.0 else ExactTotal(lines[..|lines| - 1]) + Exact(lines[|lines| - 1].0, lines[|lines| - 1].1)
  }

  function Half(n: nat): real {
    n as real / 2.0
  }

  lemma DistanceAdds(a: real, b: real, c: real, d: real, n: nat)
    requires Distance(a, b) * MICRO <= Half(n) && Distance(c, d) * MICRO <= 0.5
    ensures Distance(a + c, b + d) * MICRO <= Half(n + 1)
  {
  }

  lemma NearPair(units: real, factor: real) returns (rounded: real, exact: real)
    ensures rounded == Tco2e(units, factor) && exact == Exact(units, factor) && Distance(rounded, exact) * MICRO <= 0.5
  {
    rounded, exact := Tco2e(units, factor), Exact(units, factor);
    Tco2eIsNear(units, factor);
  }

  /** One more line adds some rounded amount to one total and a near exact one to the other. */
  lemma NextLine(lines: seq<(real, real)>, x: (real, real)) returns (rounded: real, exact: real)
    ensures RoundedTotal(lines + [x]) == RoundedTotal(lines) + rounded
    ensures ExactTotal(lines + [x]) == ExactTotal(lines) + exact
    ensures Distance(rounded, exact) * MICRO <= 0.5
  {
    rounded, exact := NearPair(x.0, x.1);
    assert (lines + [x])[..|lines|] == lines;
  }

  /** The batch total is off by at most half a micro-tonne a line. */
  lemma {:induction false} BatchErrorIsBounded(lines: seq<(real, real)>)
    ensures Distance(RoundedTotal(lines), ExactTotal(lines)) * MICRO <= Half(|lines|)
  {
    if lines != [] {
      var init := lines[..|lines| - 1];
      BatchErrorIsBounded(init);
      var rounded, exact := NextLine(init, lines[|lines| - 1]);
      assert lines == init + [lines[|lines| - 1]];
      DistanceAdds(RoundedTotal(init), ExactTotal(init), rounded, exact, |init|);
    }
  }

  // -- rules -----------------------------------------------------------------------------------

  datatype Basis = Activity | Spend

  datatype Quality = Measured | Estimated | Flagged

  datatype Dimension = Item(code: string) | Vendor(text: string) | Gl(account: string)

  datatype Rule = Rule(id: string, dimension: Dimension, category: string, scope: string, basis: Basis,
                       factorRef: string, fallbackRef: Option<string>)

  datatype Record = Record(item: Option<string>, vendor: Option<string>, gl: Option<string>,
                           quantity: Option<real>, uom: Option<string>, amount: Option<real>)

  datatype Factor = Factor(value: real, uom: Option<string>)

  type Factors = map<string, Factor>

  predicate IsSpace(c: char) {
    c in {' ', '\t', '\n', '\r'}
  }

  function StripLeft(s: string): string {
    if s != "" && IsSpace(s[0]) then StripLeft(s[1..]) else s
  }

  function StripRight(s: string): string {
    if s != "" && IsSpace(s[|s| - 1]) then StripRight(s[..|s| - 1]) else s
  }

  function Strip(s: string): string {
    StripRight(StripLeft(s))
  }

  function UpperChar(c: char): char {
    if 'a' <= c <= 'z' then (c as int - 32) as char else c
  }

  function LowerChar(c: char): char {
    if 'A' <= c <= 'Z' then (c as int + 32) as char else c
  }

  function Upper(s: string): string { Map(s, UpperChar) }

  function Lower(s: string): string { Map(s, LowerChar) }

  predicate StandsAt(text: string, part: string, i: int) {
    0 <= i <= |text| - |part| && text[i..i + |part|] == part
  }

  predicate Contains(text: string, part: string) {
    exists i :: 0 <= i <= |text| && StandsAt(text, part, i)
  }

  predicate Matches(r: Record, rule: Rule) {
    match rule.dimension
    case Item(code) => r.item.Some? && Upper(Strip(r.item.value)) == Upper(Strip(code))
    case Vendor(text) => r.vendor.Some? && Contains(Lower(Strip(r.vendor.value)), Lower(Strip(text)))
    case Gl(account) => r.gl.Some? && Strip(r.gl.value) == Strip(account)
  }

  function Precedence(rule: Rule): nat {
    match rule.dimension case Item(_) => 0 case Vendor(_) => 1 case Gl(_) => 2
  }

  /** Rule i matches, and every other rule that does is less specific, or as specific and
      later in the set. */
  predicate Wins(r: Record, rules: seq<Rule>, i: int) {
    && 0 <= i < |rules| && Matches(r, rules[i])
    && forall j :: 0 <= j < |rules| && Matches(r, rules[j]) && j != i ==>
         Precedence(rules[j]) > Precedence(rules[i]) || (Precedence(rules[j]) == Precedence(rules[i]) && j > i)
  }

  lemma WinnerIsUnique(r: Record, rules: seq<Rule>, i: int, j: int)
    requires Wins(r, rules, i) && Wins(r, rules, j)
    ensures i == j
  {
  }

  /** The first rule of a dimension that matches. */
  function FirstOf(r: Record, rules: seq<Rule>, d: nat): (k: Option<nat>)
    ensures k.Some? ==> k.value < |rules| && Precedence(rules[k.value]) == d && Matches(r, rules[k.value])
    ensures k.Some? ==> forall j :: 0 <= j < k.value && Precedence(rules[j]) == d ==> !Matches(r, rules[j])
    ensures k.None? ==> forall j :: 0 <= j < |rules| && Precedence(rules[j]) == d ==> !Matches(r, rules[j])
  {
    if rules == [] then None
    else
      var before := FirstOf(r, rules[..|rules| - 1], d);
      if before.Some? then before
      else if Precedence(rules[|rules| - 1]) == d && Matches(r, rules[|rules| - 1]) then Some(|rules| - 1) else None
  }

  /** The rule that applies: by item, else by vendor, else by account. */
  function Winner(r: Record, rules: seq<Rule>): Option<nat> {
    if FirstOf(r, rules, 0).Some? then FirstOf(r, rules, 0)
    else if FirstOf(r, rules, 1).Some? then FirstOf(r, rules, 1)
    else FirstOf(r, rules, 2)
  }

  lemma WinnerWins(r: Record, rules: seq<Rule>)
    ensures
      match Winner(r, rules)
      case Some(i) => Wins(r, rules, i)
      case None => forall i :: 0 <= i < |rules| ==> !Matches(r, rules[i])
  {
    forall i | 0 <= i < |rules| ensures Precedence(rules[i]) <= 2 {}
  }

  lemma WinsIsWinner(r: Record, rules: seq<Rule>, i: nat)
    requires Wins(r, rules, i)
    ensures Winner(r, rules) == Some(i)
  {
    WinnerWins(r, rules);
    if Winner(r, rules).Some? { WinnerIsUnique(r, rules, i, Winner(r, rules).value); }
  }

  /** `match_rule`: rules into buckets by dimension, buckets scanned in order. */
  method MatchRule(r: Record, rules: seq<Rule>) returns (winner: Option<nat>)
    ensures winner == Winner(r, rules)
    ensures winner.Some? ==> Wins(r, rules, winner.value)
    ensures winner.None? ==> forall i :: 0 <= i < |rules| ==> !Matches(r, rules[i])
  {
    var buckets: seq<seq<nat>> := [[], [], []];
    var i := 0;
    while i < |rules|
      invariant 0 <= i <= |rules| && |buckets| == 3
      invariant forall d :: 0 <= d < 3 ==> InBucket(rules, i, d, buckets[d])
    {
      var d := Precedence(rules[i]);
      buckets := buckets[d := buckets[d] + [i]];
      i := i + 1;
    }
    var d := 0;
    while d < 3
      invariant 0 <= d <= 3
      invariant forall k :: 0 <= k < |rules| && Precedence(rules[k]) < d ==> !Matches(r, rules[k])
    {
      var j := 0;
      while j < |buckets[d]|
        invariant 0 <= j <= |buckets[d]|
        invariant forall k :: 0 <= k < j ==> !Matches(r, rules[buckets[d][k]])
      {
        if Matches(r, rules[buckets[d][j]]) {
          WinsIsWinner(r, rules, buckets[d][j]);
          return Some(buckets[d][j]);
        }
        j := j + 1;
      }
      d := d + 1;
    }
    WinnerWins(r, rules);
    winner := None;
  }

  /** The rules of one dimension among the first n, in order. */
  predicate InBucket(rules: seq<Rule>, n: nat, d: nat, bucket: seq<nat>) {
    && n <= |rules|
    && (forall k :: 0 <= k < |bucket| ==> bucket[k] < n && Precedence(rules[bucket[k]]) == d)
    && (forall j, k :: 0 <= j < k < |bucket| ==> bucket[j] < bucket[k])
    && (forall i :: 0 <= i < n && Precedence(rules[i]) == d ==> i in bucket)
  }

  // -- valuation ------------------------------------------------------------------------------------

  datatype Resolution = Resolution(basis: Basis, quality: Quality, quantity: Option<real>, uom: Option<string>,
                                   amount: Option<real>, factorRef: Option<string>)

  datatype Emission = Emission(tco2e: real, factorRef: Option<string>, factor: real)

  datatype Error = UnknownFactor | NeedsQuantity | NeedsAmount

  predicate UomMatch(a: Option<string>, b: Option<string>) {
    a.Some? && b.Some? && a.value != "" && b.value != "" && Upper(Strip(a.value)) == Upper(Strip(b.value))
  }

  predicate HasQuantity(r: Record) {
    r.quantity.Some? && r.quantity.value > 0.0
  }

  function Resolve(r: Record, rule: Rule, factors: Factors): Result<Resolution, Error> {
    if rule.factorRef !in factors then Err(UnknownFactor)
    else if rule.basis.Spend? then Ok(Resolution(Spend, Estimated, None, None, r.amount, Some(rule.factorRef)))
    else if HasQuantity(r) && UomMatch(r.uom, factors[rule.factorRef].uom) then
      Ok(Resolution(Activity, Measured, r.quantity, r.uom, None, Some(rule.factorRef)))
    else if rule.fallbackRef.Some? && rule.fallbackRef.value != "" && r.amount.Some? then
      Ok(Resolution(Spend, Estimated, None, None, r.amount, rule.fallbackRef))
    else Ok(Resolution(Spend, Flagged, None, None, r.amount, None))
  }

  function Compute(x: Resolution, factors: Factors): Result<Emission, Error> {
    if x.factorRef.None? then Ok(Emission(0.0, None, 0.0))
    else if x.factorRef.value !in factors then Err(UnknownFactor)
    else
      var factor := factors[x.factorRef.value].value;
      if x.basis.Activity? then
        if x.quantity.None? then Err(NeedsQuantity)
        else Ok(Emission(Tco2e(x.quantity.value, factor), x.factorRef, factor))
      else
        if x.amount.None? then Err(NeedsAmount) else Ok(Emission(Tco2e(x.amount.value, factor), x.factorRef, factor))
  }

  /** Both factors a rule names are in the set. */
  predicate Backed(rule: Rule, factors: Factors) {
    && rule.factorRef in factors
    && (rule.fallbackRef.Some? && rule.fallbackRef.value != "" ==> rule.fallbackRef.value in factors)
  }

  /** With its factors in the set, a resolved line cannot be valued exactly when the rule is
      spend-based and the line has no amount; the missing-quantity error is never reached. */
  lemma ComputeFailsIff(r: Record, rule: Rule, factors: Factors)
    requires Backed(rule, factors)
    ensures Resolve(r, rule, factors).Ok?
    ensures
      var e := Compute(Resolve(r, rule, factors).value, factors);
      e.Err? <==> rule.basis.Spend? && r.amount.None?
    ensures Compute(Resolve(r, rule, factors).value, factors).Err? ==>
      Compute(Resolve(r, rule, factors).value, factors).error == NeedsAmount
  {
  }

  /** What an accepted line, which always has an amount, is worth: measured by its quantity,
      or estimated by its amount, or nothing and flagged. */
  lemma ValuedAs(r: Record, rule: Rule, factors: Factors)
    requires Backed(rule, factors) && r.amount.Some?
    ensures
      var x := Resolve(r, rule, factors).value;
      var e := Compute(x, factors).value;
      match x.quality
      case Measured =>
        && r.quantity.Some? && r.quantity.value > 0.0
        && e.tco2e == Tco2e(r.quantity.value, factors[rule.factorRef].value)
      case Estimated =>
        && e.factorRef.Some? && e.factorRef.value in factors
        && e.tco2e == Tco2e(r.amount.value, factors[e.factorRef.value].value)
      case Flagged => e.tco2e == 0.0 && rule.basis.Activity? && (rule.fallbackRef.None? || rule.fallbackRef.value == "")
  {
  }
}
