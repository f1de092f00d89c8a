/** Separation of duties and the approval matrix (src/eclaim/services/sod.py), shared by
    staff claims and vendor bills. */
module ApprovalMatrix {
  import opened Prelude

  datatype Role = Viewer | Approver | Manager | Partner

  datatype Channel = EClaim | Payables

  datatype Principal = Principal(user: nat, role: Role, clients: set<nat>, limit: Option<real>) {
    predicate CanAccess(client: nat) { client in clients }
  }

  datatype Rule = Rule(active: bool, step: nat, min: Option<real>, max: Option<real>,
                       scopeModule: Option<Channel>, scopeDepartment: Option<string>, scopeCategory: Option<nat>,
                       role: Option<Role>, user: Option<nat>)

  /** What is being approved: its module, department, categories and amount. */
  datatype Subject = Subject(channel: Channel, department: Option<string>, categories: set<nat>, amount: real)

  function Rank(role: Role): int {
    match role
    case Viewer => 0
    case Approver => 1
    case Manager => 2
    case Partner => 3
  }

  predicate Satisfied(rule: Rule, approver: Principal) {
    if rule.user.Some? then approver.user == rule.user.value
    else if rule.role.Some? then Rank(approver.role) >= Rank(rule.role.value)
    else true
  }

  predicate InBand(amount: real, rule: Rule) {
    && (rule.min.None? || amount >= rule.min.value)
    && (rule.max.None? || amount <= rule.max.value)
  }

  /** A step-1 band of the subject's module, whatever its amounts and other scopes. */
  predicate IsBand(rule: Rule, channel: Channel) {
    rule.active && rule.step == 1 && (rule.scopeModule.None? || rule.scopeModule.value == channel)
  }

  predicate Fits(rule: Rule, s: Subject) {
    && IsBand(rule, s.channel) && InBand(s.amount, rule)
    && (rule.scopeDepartment.None? || rule.scopeDepartment == s.department)
    && (rule.scopeCategory.None? || rule.scopeCategory.value in s.categories)
  }

  function Floor(rule: Rule): real {
    if rule.min.Some? then rule.min.value else 0.0
  }

  /** The sort key: module before category before department. */
  function Specificity(rule: Rule): nat {
    (if rule.scopeModule.Some? then 4 else 0) + (if rule.scopeCategory.Some? then 2 else 0)
      + (if rule.scopeDepartment.Some? then 1 else 0)
  }

  // -- choosing the rule ---------------------------------------------------------

  /** A stable sort, most specific first. */
  function SortBySpecificity(rules: seq<Rule>): (r: seq<Rule>)
    ensures |r| == |rules|
  {
    if rules == [] then [] else Insert(rules[0], SortBySpecificity(rules[1..]))
  }

  function Insert(rule: Rule, sorted: seq<Rule>): (r: seq<Rule>)
    ensures |r| == |sorted| + 1
  {
    if sorted == [] || Specificity(rule) >= Specificity(sorted[0]) then [rule] + sorted
    else [sorted[0]] + Insert(rule, sorted[1..])
  }

  function SelectRule(rules: seq<Rule>, s: Subject): Option<Rule> {
    var matches := SortBySpecificity(Filter(rules, (r: Rule) => Fits(r, s)));
    if matches == [] then None else Some(matches[0])
  }

  /** Rule i fits, no rule that fits is more specific, and of the equally specific ones
      it is the first. */
  predicate IsBest(rules: seq<Rule>, s: Subject, i: int) {
    && 0 <= i < |rules| && Fits(rules[i], s)
    && forall j :: 0 <= j < |rules| && Fits(rules[j], s) ==>
         Specificity(rules[j]) <= Specificity(rules[i]) && (j < i ==> Specificity(rules[j]) < Specificity(rules[i]))
  }

  lemma {:induction false} SelectIsBest(rules: seq<Rule>, s: Subject) returns (i: int)
    ensures SelectRule(rules, s).None? ==> forall j :: 0 <= j < |rules| ==> !Fits(rules[j], s)
    ensures SelectRule(rules, s).Some? ==> IsBest(rules, s, i) && SelectRule(rules, s).value == rules[i]
  {
    i := 0;
    if rules != [] {
      var rest := rules[1..];
      var k := SelectIsBest(rest, s);
      var tail := SortBySpecificity(Filter(rest, (r: Rule) => Fits(r, s)));
      forall j | 0 < j < |rules| ensures rules[j] == rest[j - 1] {}
      if Fits(rules[0], s) {
        assert Filter(rules, (r: Rule) => Fits(r, s)) == [rules[0]] + Filter(rest, (r: Rule) => Fits(r, s));
        assert SortBySpecificity(Filter(rules, (r: Rule) => Fits(r, s))) == Insert(rules[0], tail);
        i := if tail == [] || Specificity(rules[0]) >= Specificity(tail[0]) then 0 else k + 1;
      } else {
        i := k + 1;
      }
    }
  }

  lemma BestIsUnique(rules: seq<Rule>, s: Subject, i: int, j: int)
    requires IsBest(rules, s, i) && IsBest(rules, s, j)
    ensures i == j
  {
  }

  // -- the gate --------------------------------------------------------------------

  datatype Resolution = Ungoverned | NoBand | Governed(rule: Rule)

  function LowestFloor(bands: seq<Rule>): real
    requires bands != []
  {
    if |bands| == 1 then Floor(bands[0])
    else
      var rest := LowestFloor(bands[1..]);
      if Floor(bands[0]) < rest then Floor(bands[0]) else rest
  }

  predicate MatrixGap(rules: seq<Rule>, s: Subject) {
    var bands := Filter(rules, (r: Rule) => IsBand(r, s.channel));
    bands != [] && s.amount >= LowestFloor(bands)
  }

  function Resolve(rules: seq<Rule>, s: Subject): Resolution {
    var rule := SelectRule(rules, s);
    if rule.Some? then Governed(rule.value)
    else if MatrixGap(rules, s) then NoBand
    else Ungoverned
  }

  /** The checks common to claims and bills, after the maker checks of each. `amount` is
      absent when the document has no total yet. */
  predicate WithinAuthority(approver: Principal, client: nat, amount: Option<real>, resolution: Resolution) {
    && approver.role != Viewer
    && approver.CanAccess(client)
    && (amount.None? || approver.limit.None? || amount.value <= approver.limit.value)
    && !resolution.NoBand?
    && (resolution.Governed? ==> Satisfied(resolution.rule, approver))
  }

  lemma {:induction false} LowestFloorIsMinimum(bands: seq<Rule>, amount: real)
    requires bands != []
    ensures amount >= LowestFloor(bands) <==> exists i :: 0 <= i < |bands| && amount >= Floor(bands[i])
  {
    if |bands| > 1 {
      LowestFloorIsMinimum(bands[1..], amount);
      if exists i :: 0 <= i < |bands[1..]| && amount >= Floor(bands[1..][i]) {
        var i :| 0 <= i < |bands[1..]| && amount >= Floor(bands[1..][i]);
        assert amount >= Floor(bands[i + 1]);
      }
      if exists i :: 0 <= i < |bands| && amount >= Floor(bands[i]) {
        var i :| 0 <= i < |bands| && amount >= Floor(bands[i]);
        if i > 0 { assert amount >= Floor(bands[1..][i - 1]); }
      }
    }
  }

  /** What the matrix demands, without resolving anything: the approver meets the most
      specific covering rule, or nothing covers the amount and it lies below the floor of
      every step-1 band of the module (there may be none). */
  predicate MatrixAllows(rules: seq<Rule>, s: Subject, approver: Principal) {
    || (exists i :: 0 <= i < |rules| && IsBest(rules, s, i) && Satisfied(rules[i], approver))
    || forall r :: r in rules && IsBand(r, s.channel) ==> !Fits(r, s) && s.amount < Floor(r)
  }

  lemma GapIffAboveSomeFloor(rules: seq<Rule>, s: Subject)
    ensures MatrixGap(rules, s) <==> exists r :: r in rules && IsBand(r, s.channel) && s.amount >= Floor(r)
  {
    var bands := Filter(rules, (r: Rule) => IsBand(r, s.channel));
    FilterMembers(rules, (r: Rule) => IsBand(r, s.channel));
    if bands != [] {
      LowestFloorIsMinimum(bands, s.amount);
      if exists r :: r in rules && IsBand(r, s.channel) && s.amount >= Floor(r) {
        var r :| r in rules && IsBand(r, s.channel) && s.amount >= Floor(r);
        assert r in bands;
        var i :| 0 <= i < |bands| && bands[i] == r;
        assert s.amount >= Floor(bands[i]);
      }
      if exists i :: 0 <= i < |bands| && s.amount >= Floor(bands[i]) {
        var i :| 0 <= i < |bands| && s.amount >= Floor(bands[i]);
        assert bands[i] in bands;
        assert bands[i] in rules && IsBand(bands[i], s.channel);
      }
    } else {
      forall r | r in rules ensures !IsBand(r, s.channel) {
        assert r !in bands;
      }
    }
  }

  /** The gate passes exactly the approvers the matrix and their own limit allow: a gap
      at or above a floor is closed, an amount below every floor is left ungoverned. */
  lemma GateIsExact(rules: seq<Rule>, s: Subject, approver: Principal, client: nat, amount: Option<real>)
    ensures WithinAuthority(approver, client, amount, Resolve(rules, s)) <==>
      && approver.role != Viewer && client in approver.clients
      && (amount.Some? && approver.limit.Some? ==> amount.value <= approver.limit.value)
      && MatrixAllows(rules, s, approver)
  {
    var i := SelectIsBest(rules, s);
    GapIffAboveSomeFloor(rules, s);
    if SelectRule(rules, s).Some? {
      forall j | IsBest(rules, s, j) ensures j == i {
        BestIsUnique(rules, s, i, j);
      }
      assert rules[i] in rules && IsBand(rules[i], s.channel) && Fits(rules[i], s);
    } else {
      assert forall j :: !IsBest(rules, s, j);
    }
  }
}
