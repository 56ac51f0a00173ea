/** Default-deny tool authorization and argument constraints
    (sentinelmcp/policy/engine.py over the shapes in sentinelmcp/policy/models.py).

    Regular-expression matching is a parameter, `fullmatch(pattern, value)`. */
module ArgumentPolicy {
  import opened Wrappers
  import opened Json
  import Text

  // ----- Policy shapes -----

  /** `equals` and `oneOf` (the `in` operator) are `None` when not configured;
      a configured `null` is `Some(Null)` and `Some(None)` respectively. */
  datatype Constraint = Constraint(
    equals: Option<Json>,
    oneOf: Option<Option<seq<Json>>>,
    min: Option<Float>,
    max: Option<Float>,
    minLength: Option<int>,
    maxLength: Option<int>,
    minItems: Option<int>,
    maxItems: Option<int>,
    pattern: Option<string>)

  datatype Rule = Rule(path: string, constraint: Constraint)

  datatype Effect = Allow | Deny

  /** `rules` is the `arguments` dictionary in insertion order. */
  datatype ToolPolicy = ToolPolicy(
    effect: Effect,
    required: seq<string>,
    forbidden: seq<string>,
    denyUnknown: bool,
    rules: seq<Rule>)

  datatype PolicyConfig = PolicyConfig(principals: map<string, map<string, ToolPolicy>>)

  type Arguments = map<string, Json>

  // ----- Tool authorization -----

  function ResolveToolPolicy(policy: PolicyConfig, principal: string, tool: string): Option<ToolPolicy> {
    if principal !in policy.principals then None
    else if tool !in policy.principals[principal] then None
    else if policy.principals[principal][tool].effect != Allow then None
    else Some(policy.principals[principal][tool])
  }

  /** The policy holds this very entry for that principal and tool. */
  ghost predicate Entry(policy: PolicyConfig, principal: string, tool: string, entry: ToolPolicy) {
    && principal in policy.principals && tool in policy.principals[principal]
    && policy.principals[principal][tool] == entry
  }

  /** An entry with effect `Allow`. */
  ghost predicate Allows(policy: PolicyConfig, principal: string, tool: string) {
    && principal in policy.principals && tool in policy.principals[principal]
    && policy.principals[principal][tool].effect == Allow
  }

  /** A tool resolves to the configured entry, whole, exactly when there is one and
      it allows. */
  lemma ResolvesToTheEntry(policy: PolicyConfig, principal: string, tool: string)
    ensures forall entry :: ResolveToolPolicy(policy, principal, tool) == Some(entry) <==>
                              Entry(policy, principal, tool, entry) && entry.effect == Allow
    ensures ResolveToolPolicy(policy, principal, tool).Some? <==> Allows(policy, principal, tool)
  {
  }

  predicate HasRule(policy: PolicyConfig, principal: string, tool: string) {
    principal in policy.principals && tool in policy.principals[principal]
  }

  // ----- One constraint -----

  datatype Operator =
    | Equals | OneOf | Min | Max | MinLength | MaxLength | MinItems | MaxItems | Pattern

  /** The order in which the operators are examined. */
  function Position(op: Operator): nat {
    match op
    case Equals => 0
    case OneOf => 1
    case Min => 2
    case Max => 3
    case MinLength => 4
    case MaxLength => 5
    case MinItems => 6
    case MaxItems => 7
    case Pattern => 8
  }

  ghost predicate Configured(c: Constraint, op: Operator) {
    match op
    case Equals => c.equals.Some?
    case OneOf => c.oneOf.Some?
    case Min => c.min.Some?
    case Max => c.max.Some?
    case MinLength => c.minLength.Some?
    case MaxLength => c.maxLength.Some?
    case MinItems => c.minItems.Some?
    case MaxItems => c.maxItems.Some?
    case Pattern => c.pattern.Some?
  }

  /** A number in the engine's sense: booleans are excluded. */
  predicate IsNumber(v: Json) { v.Int? || v.Number? }

  /** What each configured operator asks of a value. */
  ghost predicate Meets(c: Constraint, op: Operator, v: Json, fullmatch: (string, string) -> bool)
    requires Configured(c, op)
  {
    match op
    case Equals => StrictEqual(v, c.equals.value)
    case OneOf => c.oneOf.value.Some? && exists w :: w in c.oneOf.value.value && StrictEqual(v, w)
    case Min => IsNumber(v) && FloatAtMost(c.min.value, NumericValue(v))
    case Max => IsNumber(v) && FloatAtMost(NumericValue(v), c.max.value)
    case MinLength => v.Str? && c.minLength.value <= |v.s|
    case MaxLength => v.Str? && |v.s| <= c.maxLength.value
    case MinItems => v.List? && c.minItems.value <= |v.items|
    case MaxItems => v.List? && |v.items| <= c.maxItems.value
    case Pattern => v.Str? && fullmatch(c.pattern.value, v.s)
  }

  ghost predicate Satisfies(c: Constraint, v: Json, fullmatch: (string, string) -> bool) {
    forall op :: Configured(c, op) ==> Meets(c, op, v, fullmatch)
  }

  /** The first configured operator the value fails. */
  function CheckConstraint(v: Json, c: Constraint, fullmatch: (string, string) -> bool): Option<Operator> {
    if c.equals.Some? && !StrictEqual(v, c.equals.value) then Some(Equals)
    else if c.oneOf.Some? && !StrictIn(v, if c.oneOf.value.Some? then c.oneOf.value.value else []) then Some(OneOf)
    else if c.min.Some? && !(IsNumber(v) && FloatAtMost(c.min.value, NumericValue(v))) then Some(Min)
    else if c.max.Some? && !(IsNumber(v) && FloatAtMost(NumericValue(v), c.max.value)) then Some(Max)
    else if c.minLength.Some? && !(v.Str? && |v.s| >= c.minLength.value) then Some(MinLength)
    else if c.maxLength.Some? && !(v.Str? && |v.s| <= c.maxLength.value) then Some(MaxLength)
    else if c.minItems.Some? && !(v.List? && |v.items| >= c.minItems.value) then Some(MinItems)
    else if c.maxItems.Some? && !(v.List? && |v.items| <= c.maxItems.value) then Some(MaxItems)
    else if c.pattern.Some? && !(v.Str? && fullmatch(c.pattern.value, v.s)) then Some(Pattern)
    else None
  }

  lemma ReportedIsUnmet(v: Json, c: Constraint, fullmatch: (string, string) -> bool)
    ensures var failed := CheckConstraint(v, c, fullmatch);
            failed.Some? ==> Configured(c, failed.value) && !Meets(c, failed.value, v, fullmatch)
  {
    if c.oneOf.Some? && c.oneOf.value.Some? { InIsStrictIn(v, c.oneOf.value.value); }
  }

  lemma InIsStrictIn(v: Json, candidates: seq<Json>)
    ensures StrictIn(v, candidates) <==> exists w :: w in candidates && StrictEqual(v, w)
  {
    if w :| w in candidates && StrictEqual(v, w) {
      var i :| 0 <= i < |candidates| && candidates[i] == w;
    }
  }

  lemma PassedIsMet(v: Json, c: Constraint, op: Operator, fullmatch: (string, string) -> bool)
    requires Configured(c, op)
    requires var failed := CheckConstraint(v, c, fullmatch); failed.None? || Position(op) < Position(failed.value)
    ensures Meets(c, op, v, fullmatch)
  {
    if op == OneOf { InIsStrictIn(v, if c.oneOf.value.Some? then c.oneOf.value.value else []); }
  }

  /** `op` is the first of the configured operators, in the order of examination,
      that the value does not meet. */
  ghost predicate FirstUnmet(c: Constraint, op: Operator, v: Json, fullmatch: (string, string) -> bool) {
    && Configured(c, op) && !Meets(c, op, v, fullmatch)
    && forall earlier :: Configured(c, earlier) && Position(earlier) < Position(op) ==> Meets(c, earlier, v, fullmatch)
  }

  /** Nothing is reported exactly when every configured operator is met; otherwise
      the first that is not. */
  lemma CheckConstraintFindsTheFirstUnmet(v: Json, c: Constraint, fullmatch: (string, string) -> bool)
    ensures CheckConstraint(v, c, fullmatch).None? <==> Satisfies(c, v, fullmatch)
    ensures forall op :: CheckConstraint(v, c, fullmatch) == Some(op) ==> FirstUnmet(c, op, v, fullmatch)
  {
    var failed := CheckConstraint(v, c, fullmatch);
    ReportedIsUnmet(v, c, fullmatch);
    forall op | Configured(c, op) && (failed.None? || Position(op) < Position(failed.value))
      ensures Meets(c, op, v, fullmatch)
    {
      PassedIsMet(v, c, op, fullmatch);
    }
  }

  // ----- The range operators, by numbers -----

  const NO_OPERATORS := Constraint(None, None, None, None, None, None, None, None, None)

  /** `v` passes a constraint whose one operator is `min`: it is an integer or a
      float, no boolean, and not below; NaN on either side fails. */
  lemma MinAcceptsExactly(v: Json, m: Float, fullmatch: (string, string) -> bool)
    ensures var passes := CheckConstraint(v, NO_OPERATORS.(min := Some(m)), fullmatch) == None;
            && (!v.Int? && !v.Number? ==> !passes)
            && (m == NaN || v == Number(NaN) ==> !passes)
            && (v.Int? && m.Finite? ==> (passes <==> m.r <= v.i as real))
            && (v.Number? && v.f.Finite? && m.Finite? ==> (passes <==> m.r <= v.f.r))
            && (m == NegInf && (v.Int? || (v.Number? && v.f != NaN)) ==> passes)
            && (m == PosInf ==> (passes <==> v == Number(PosInf)))
            && (v == Number(PosInf) && m != NaN ==> passes)
            && (v == Number(NegInf) ==> (passes <==> m == NegInf))
  {
  }

  /** The same for `max`. */
  lemma MaxAcceptsExactly(v: Json, m: Float, fullmatch: (string, string) -> bool)
    ensures var passes := CheckConstraint(v, NO_OPERATORS.(max := Some(m)), fullmatch) == None;
            && (!v.Int? && !v.Number? ==> !passes)
            && (m == NaN || v == Number(NaN) ==> !passes)
            && (v.Int? && m.Finite? ==> (passes <==> v.i as real <= m.r))
            && (v.Number? && v.f.Finite? && m.Finite? ==> (passes <==> v.f.r <= m.r))
            && (m == PosInf && (v.Int? || (v.Number? && v.f != NaN)) ==> passes)
            && (m == NegInf ==> (passes <==> v == Number(NegInf)))
            && (v == Number(NegInf) && m != NaN ==> passes)
            && (v == Number(PosInf) ==> (passes <==> m == PosInf))
  {
  }

  /** A configured range accepts exactly the numbers within it. */
  lemma RangeAcceptsExactly(n: int, low: real, high: real, fullmatch: (string, string) -> bool)
    ensures var range := NO_OPERATORS.(min := Some(Finite(low)), max := Some(Finite(high)));
            && (CheckConstraint(Int(n), range, fullmatch) == None <==> low <= n as real <= high)
            && (n as real < low ==> CheckConstraint(Int(n), range, fullmatch) == Some(Min))
            && (low <= n as real && high < n as real ==> CheckConstraint(Int(n), range, fullmatch) == Some(Max))
  {
  }

  // ----- Paths -----

  function Lookup(v: Json, segments: seq<string>): Option<Json>
    decreases |segments|
  {
    if segments == [] then Some(v)
    else if v.Object? && segments[0] in v.fields then Lookup(v.fields[segments[0]], segments[1..])
    else None
  }

  /** `chain` walks from `v` through one object field per segment. */
  ghost predicate Walks(v: Json, segments: seq<string>, chain: seq<Json>) {
    && |chain| == |segments| + 1
    && chain[0] == v
    && forall i :: 0 <= i < |segments| ==>
         chain[i].Object? && segments[i] in chain[i].fields && chain[i + 1] == chain[i].fields[segments[i]]
  }

  lemma WalkFromAbove(v: Json, segments: seq<string>, chain: seq<Json>)
    requires segments != [] && v.Object? && segments[0] in v.fields
    requires Walks(v.fields[segments[0]], segments[1..], chain)
    ensures Walks(v, segments, [v] + chain)
  {
    var longer := [v] + chain;
    forall i | 0 <= i < |segments|
      ensures longer[i].Object? && segments[i] in longer[i].fields && longer[i + 1] == longer[i].fields[segments[i]]
    {
      if i > 0 { assert segments[i] == segments[1..][i - 1]; }
    }
  }

  lemma WalkFromBelow(v: Json, segments: seq<string>, chain: seq<Json>)
    requires segments != [] && Walks(v, segments, chain)
    ensures v.Object? && segments[0] in v.fields && Walks(v.fields[segments[0]], segments[1..], chain[1..])
  {
    forall i | 0 <= i < |segments[1..]|
      ensures chain[1..][i].Object? && segments[1..][i] in chain[1..][i].fields
      ensures chain[1..][i + 1] == chain[1..][i].fields[segments[1..][i]]
    {
      assert segments[1..][i] == segments[i + 1];
    }
  }

  lemma {:induction false} LookupFindsTheWalk(v: Json, segments: seq<string>, w: Json)
    ensures Lookup(v, segments) == Some(w) <==>
              exists chain :: Walks(v, segments, chain) && chain[|segments|] == w
    decreases |segments|
  {
    if segments == [] {
      assert Walks(v, segments, [v]);
    } else {
      if v.Object? && segments[0] in v.fields {
        LookupFindsTheWalk(v.fields[segments[0]], segments[1..], w);
      }
      if Lookup(v, segments) == Some(w) {
        var chain :| Walks(v.fields[segments[0]], segments[1..], chain) && chain[|segments[1..]|] == w;
        WalkFromAbove(v, segments, chain);
        assert ([v] + chain)[|segments|] == w;
      }
      if chain: seq<Json> :| Walks(v, segments, chain) && chain[|segments|] == w {
        WalkFromBelow(v, segments, chain);
        assert chain[1..][|segments[1..]|] == w;
      }
    }
  }

  /** The walk over a dotted path; a missing key or a non-object on the way
      means the path is not present. */
  method ResolvePath(arguments: Arguments, path: string) returns (value: Option<Json>)
    ensures value == Lookup(Object(arguments), Text.Split(path, '.'))
  {
    var current := Object(arguments);
    var segments := Text.Split(path, '.');
    for i := 0 to |segments|
      invariant Lookup(Object(arguments), segments) == Lookup(current, segments[i..])
    {
      if !(current.Object? && segments[i] in current.fields) {
        return None;
      }
      current := current.fields[segments[i]];
      assert segments[i..][1..] == segments[i + 1..];
    }
    return Some(current);
  }

  // ----- The whole evaluation -----

  ghost function Known(p: ToolPolicy): set<string> {
    (set n | n in p.required) + (set n | n in p.forbidden) + (set r | r in p.rules :: Text.Split(r.path, '.')[0])
  }

  /** Some rule, required or forbidden name mentions it. */
  ghost predicate Mentions(p: ToolPolicy, name: string) {
    || name in p.required || name in p.forbidden
    || exists r :: r in p.rules && Text.Split(r.path, '.')[0] == name
  }

  lemma KnownIsMentioned(p: ToolPolicy)
    ensures forall n :: n in Known(p) <==> Mentions(p, n)
  {
  }

  method KnownTopLevelFields(p: ToolPolicy) returns (known: set<string>)
    ensures known == Known(p)
    ensures forall n :: n in known <==> Mentions(p, n)
  {
    KnownIsMentioned(p);
    known := (set n | n in p.required) + (set n | n in p.forbidden);
    for i := 0 to |p.rules|
      invariant known == (set n | n in p.required) + (set n | n in p.forbidden)
                         + (set r | r in p.rules[..i] :: Text.Split(r.path, '.')[0])
    {
      Text.BeforeIsFirstPart(p.rules[i].path, '.');
      known := known + {Text.Before(p.rules[i].path, '.')};
      assert p.rules[..i + 1] == p.rules[..i] + [p.rules[i]];
    }
    assert p.rules[..|p.rules|] == p.rules;
  }

  ghost predicate RequiredPresent(p: ToolPolicy, a: Arguments) { forall n :: n in p.required ==> n in a }

  ghost predicate ForbiddenAbsent(p: ToolPolicy, a: Arguments) { forall n :: n in p.forbidden ==> n !in a }

  ghost predicate NoneUnknown(p: ToolPolicy, a: Arguments) {
    p.denyUnknown ==> forall n :: n in a.Keys ==> Mentions(p, n)
  }

  /** The rule's path is absent, or its value meets every configured operator. */
  ghost predicate RuleHolds(r: Rule, a: Arguments, fullmatch: (string, string) -> bool) {
    var found := Lookup(Object(a), Text.Split(r.path, '.'));
    found.Some? ==> Satisfies(r.constraint, found.value, fullmatch)
  }

  ghost predicate RulesHold(p: ToolPolicy, a: Arguments, fullmatch: (string, string) -> bool) {
    forall r :: r in p.rules ==> RuleHolds(r, a, fullmatch)
  }

  /** The meaning of a tool policy, with no order and no early exit. */
  ghost predicate Accepts(p: ToolPolicy, a: Arguments, fullmatch: (string, string) -> bool) {
    RequiredPresent(p, a) && ForbiddenAbsent(p, a) && NoneUnknown(p, a) && RulesHold(p, a, fullmatch)
  }

  datatype Violation =
    | MissingRequired(name: string)
    | ForbiddenPresent(name: string)
    | UnknownField(name: string)
    | ConstraintFailed(path: string, operator: Operator)

  /** A violation names a real defect, and nothing examined before it failed. */
  ghost predicate Justified(v: Violation, p: ToolPolicy, a: Arguments, fullmatch: (string, string) -> bool) {
    match v
    case MissingRequired(n) =>
      exists i :: 0 <= i < |p.required| && p.required[i] == n && n !in a
                  && forall j :: 0 <= j < i ==> p.required[j] in a
    case ForbiddenPresent(n) =>
      RequiredPresent(p, a) && exists i :: 0 <= i < |p.forbidden| && p.forbidden[i] == n && n in a
                                           && forall j :: 0 <= j < i ==> p.forbidden[j] !in a
    case UnknownField(n) =>
      RequiredPresent(p, a) && ForbiddenAbsent(p, a) && p.denyUnknown && n in a && n !in Known(p)
    case ConstraintFailed(path, op) =>
      RequiredPresent(p, a) && ForbiddenAbsent(p, a) && NoneUnknown(p, a)
      && exists i :: 0 <= i < |p.rules| && FirstBroken(p, i, path, op, a, fullmatch)
  }

  ghost predicate FirstBroken(p: ToolPolicy, i: nat, path: string, op: Operator, a: Arguments,
                              fullmatch: (string, string) -> bool)
    requires i < |p.rules|
  {
    var found := Lookup(Object(a), Text.Split(path, '.'));
    && p.rules[i].path == path && found.Some?
    && FirstUnmet(p.rules[i].constraint, op, found.value, fullmatch)
    && forall j :: 0 <= j < i ==> RuleHolds(p.rules[j], a, fullmatch)
  }

  /** Sound and complete: no violation exactly when the policy accepts. The
      caller's fields are visited in an arbitrary order. */
  method EvaluateArgumentPolicy(p: ToolPolicy, a: Arguments, fullmatch: (string, string) -> bool)
      returns (violation: Option<Violation>)
    ensures violation.None? <==> Accepts(p, a, fullmatch)
    ensures violation.Some? ==> Justified(violation.value, p, a, fullmatch)
  {
    for i := 0 to |p.required|
      invariant forall j :: 0 <= j < i ==> p.required[j] in a
    {
      if p.required[i] !in a {
        return Some(MissingRequired(p.required[i]));
      }
    }
    for i := 0 to |p.forbidden|
      invariant forall j :: 0 <= j < i ==> p.forbidden[j] !in a
    {
      if p.forbidden[i] in a {
        return Some(ForbiddenPresent(p.forbidden[i]));
      }
    }
    if p.denyUnknown {
      var known := KnownTopLevelFields(p);
      var remaining := a.Keys;
      while remaining != {}
        invariant remaining <= a.Keys
        invariant a.Keys - remaining <= known
        decreases |remaining|
      {
        var name :| name in remaining;
        if name !in known {
          return Some(UnknownField(name));
        }
        remaining := remaining - {name};
      }
    }
    for i := 0 to |p.rules|
      invariant forall j :: 0 <= j < i ==> RuleHolds(p.rules[j], a, fullmatch)
    {
      var value := ResolvePath(a, p.rules[i].path);
      if value.Some? {
        var failed := CheckConstraint(value.value, p.rules[i].constraint, fullmatch);
        CheckConstraintFindsTheFirstUnmet(value.value, p.rules[i].constraint, fullmatch);
        if failed.Some? {
          assert !RuleHolds(p.rules[i], a, fullmatch);
          assert FirstBroken(p, i, p.rules[i].path, failed.value, a, fullmatch);
          return Some(ConstraintFailed(p.rules[i].path, failed.value));
        }
      }
    }
    return None;
  }

  // ----- Consequences for whoever writes policies -----

  /** The verdict depends only on which names and rules a policy lists, never on
      their order or repetition. */
  lemma VerdictIgnoresOrder(p: ToolPolicy, q: ToolPolicy, a: Arguments, fullmatch: (string, string) -> bool)
    requires forall n :: n in p.required <==> n in q.required
    requires forall n :: n in p.forbidden <==> n in q.forbidden
    requires forall r :: r in p.rules <==> r in q.rules
    requires p.denyUnknown == q.denyUnknown
    ensures Accepts(p, a, fullmatch) <==> Accepts(q, a, fullmatch)
  {
    assert Known(p) == Known(q);
  }

  ghost predicate Keeps<T>(before: Option<T>, after: Option<T>) { before.Some? ==> after == before }

  /** `after` has every operator of `before`, with the same operand. */
  ghost predicate Extends(before: Constraint, after: Constraint) {
    && Keeps(before.equals, after.equals) && Keeps(before.oneOf, after.oneOf)
    && Keeps(before.min, after.min) && Keeps(before.max, after.max)
    && Keeps(before.minLength, after.minLength) && Keeps(before.maxLength, after.maxLength)
    && Keeps(before.minItems, after.minItems) && Keeps(before.maxItems, after.maxItems)
    && Keeps(before.pattern, after.pattern)
  }

  ghost predicate ExtendsRule(before: Rule, after: Rule) {
    before.path == after.path && Extends(before.constraint, after.constraint)
  }

  /** `q` asks for everything `p` asks for, and perhaps more. */
  ghost predicate Tightens(p: ToolPolicy, q: ToolPolicy) {
    && (p.denyUnknown ==> q.denyUnknown)
    && (forall n :: n in p.required ==> n in q.required)
    && (forall n :: n in p.forbidden ==> n in q.forbidden)
    && (forall r :: r in p.rules ==> exists r' :: r' in q.rules && ExtendsRule(r, r'))
  }

  lemma ExtendedRuleImpliesRule(r: Rule, r': Rule, a: Arguments, fullmatch: (string, string) -> bool)
    requires ExtendsRule(r, r') && RuleHolds(r', a, fullmatch)
    ensures RuleHolds(r, a, fullmatch)
  {
    var found := Lookup(Object(a), Text.Split(r.path, '.'));
    if found.Some? {
      forall op | Configured(r.constraint, op) ensures Meets(r.constraint, op, found.value, fullmatch) {
        assert Configured(r'.constraint, op) && Meets(r'.constraint, op, found.value, fullmatch);
      }
    }
  }

  /** An argument set the tighter policy accepts was rejected before only if
      unknown names are denied and it carries a name the looser policy did not
      know; that name is listed by the tighter policy and is not forbidden. */
  lemma TighteningNeverLoosens(p: ToolPolicy, q: ToolPolicy, a: Arguments, fullmatch: (string, string) -> bool)
    requires Tightens(p, q) && Accepts(q, a, fullmatch)
    ensures Accepts(p, a, fullmatch) <==> !(p.denyUnknown && exists n :: n in a && n !in Known(p))
    ensures forall n :: p.denyUnknown && n in a && n !in Known(p) ==> n in Known(q) && n !in q.forbidden
  {
    forall r | r in p.rules ensures RuleHolds(r, a, fullmatch) {
      var r' :| r' in q.rules && ExtendsRule(r, r');
      ExtendedRuleImpliesRule(r, r', a, fullmatch);
    }
  }

  /** `q` is `p` with operators added to existing constraints, names added to
      `forbidden`, and perhaps unknown names now denied. */
  ghost predicate Strengthens(p: ToolPolicy, q: ToolPolicy) {
    && (p.denyUnknown ==> q.denyUnknown)
    && (forall n :: n in p.required <==> n in q.required)
    && (forall n :: n in p.forbidden ==> n in q.forbidden)
    && |p.rules| == |q.rules|
    && forall i :: 0 <= i < |p.rules| ==> ExtendsRule(p.rules[i], q.rules[i])
  }

  /** Such a change never turns a rejected argument set into an accepted one. */
  lemma StrengtheningNeverLoosens(p: ToolPolicy, q: ToolPolicy, a: Arguments, fullmatch: (string, string) -> bool)
    requires Strengthens(p, q) && Accepts(q, a, fullmatch)
    ensures Accepts(p, a, fullmatch)
  {
    forall r | r in p.rules ensures RuleHolds(r, a, fullmatch) {
      var i :| 0 <= i < |p.rules| && p.rules[i] == r;
      assert ExtendsRule(p.rules[i], q.rules[i]) && RuleHolds(q.rules[i], a, fullmatch);
      ExtendedRuleImpliesRule(r, q.rules[i], a, fullmatch);
    }
    forall n | p.denyUnknown && n in a ensures n in Known(p) {
      assert n in Known(q) && n !in q.forbidden;
      if n !in q.required {
        var r' :| r' in q.rules && Text.Split(r'.path, '.')[0] == n;
        var i :| 0 <= i < |q.rules| && q.rules[i] == r';
        assert ExtendsRule(p.rules[i], q.rules[i]);
        assert p.rules[i] in p.rules && Text.Split(p.rules[i].path, '.')[0] == n;
      }
    }
  }

  /** Requiring one more name can accept what was rejected: the name becomes known. */
  lemma RequiringANameCanLoosen(fullmatch: (string, string) -> bool)
    ensures var p := ToolPolicy(Allow, [], [], true, []);
            var q := p.(required := ["x"]);
            var a: Arguments := map["x" := Null];
            Tightens(p, q) && !Accepts(p, a, fullmatch) && Accepts(q, a, fullmatch)
  {
    var p := ToolPolicy(Allow, [], [], true, []);
    var q := p.(required := ["x"]);
    var a: Arguments := map["x" := Null];
    assert "x" in q.required && "x" in Known(q) && "x" !in Known(p) && "x" in a.Keys;
  }

  /** So can constraining one more path: its first segment becomes known. */
  lemma ConstrainingANameCanLoosen(constraint: Constraint, v: Json, fullmatch: (string, string) -> bool)
    requires Satisfies(constraint, v, fullmatch)
    ensures var p := ToolPolicy(Allow, [], [], true, []);
            var q := p.(rules := [Rule("x", constraint)]);
            var a: Arguments := map["x" := v];
            Tightens(p, q) && !Accepts(p, a, fullmatch) && Accepts(q, a, fullmatch)
  {
    var p := ToolPolicy(Allow, [], [], true, []);
    var rule := Rule("x", constraint);
    var q := p.(rules := [rule]);
    var a: Arguments := map["x" := v];
    Text.SplitOfFree("x", '.');
    assert rule in q.rules && "x" in Known(q) && "x" !in Known(p) && "x" in a.Keys;
    assert Lookup(Object(a), ["x"]) == Lookup(v, ["x"][1..]) == Some(v);
  }

  /** The path leads to a value up to segment `i`, and no further: that value is
      not an object, or lacks the segment. */
  ghost predicate BreaksAt(v: Json, segments: seq<string>, i: nat) {
    && i < |segments|
    && var parent := Lookup(v, segments[..i]);
       parent.Some? && !(parent.value.Object? && segments[i] in parent.value.fields)
  }

  lemma {:induction false} LookupAppends(v: Json, s: seq<string>, t: seq<string>)
    ensures Lookup(v, s + t) == match Lookup(v, s) case Some(w) => Lookup(w, t) case None => None
  {
    if s == [] {
      assert s + t == t;
    } else if v.Object? && s[0] in v.fields {
      LookupAppends(v.fields[s[0]], s[1..], t);
      assert (s + t)[1..] == s[1..] + t;
    }
  }

  lemma {:induction false} LookupFailsSomewhere(v: Json, segments: seq<string>) returns (i: nat)
    requires Lookup(v, segments).None?
    ensures BreaksAt(v, segments, i)
  {
    if v.Object? && segments[0] in v.fields {
      var j := LookupFailsSomewhere(v.fields[segments[0]], segments[1..]);
      i := j + 1;
      assert segments[..i][1..] == segments[1..][..j];
    } else {
      i := 0;
    }
  }

  /** A dotted path can be side-stepped, and exactly so: the path leads to nothing
      when, and only when, some parent on it is no object or lacks the next name.
      Then the rule holds whatever it demands. */
  lemma NonObjectParentSkipsTheRule(r: Rule, a: Arguments, fullmatch: (string, string) -> bool)
    ensures var v, segments := Object(a), Text.Split(r.path, '.');
            (exists i :: BreaksAt(v, segments, i)) <==> Lookup(v, segments).None?
    ensures (exists i :: BreaksAt(Object(a), Text.Split(r.path, '.'), i)) ==> RuleHolds(r, a, fullmatch)
  {
    var v, segments := Object(a), Text.Split(r.path, '.');
    if i: nat :| BreaksAt(v, segments, i) {
      LookupAppends(v, segments[..i], segments[i..]);
      assert segments[..i] + segments[i..] == segments && segments[i..][0] == segments[i];
      assert Lookup(v, segments).None?;
    } else if Lookup(v, segments).None? {
      var i := LookupFailsSomewhere(v, segments);
    }
  }
}
