/** What a caller can and cannot tell about the policy: discovery, the one answer
    for tools it may not use, and a deny rule against no rule at all. */
module Denials {
  import opened Wrappers
  import opened ArgumentPolicy
  import opened AuditLog
  import opened ToolCache
  import opened Pipeline
  import opened PipelineInvariants
  import opened PipelineTheorems
  import opened PipelineAudit
  import opened PipelineProgress
  import opened Uninterrupted
  import Rate = RateLimiter
  import Slot = ConcurrencyLimiter

  // ----- Discovery -----

  /** The tools a `tools/list` request shows to a principal. */
  function ListedTools(policy: PolicyConfig, principal: string, tools: seq<Tool>): seq<Tool> {
    if tools == [] then []
    else if ResolveToolPolicy(policy, principal, tools[0].name).Some? then
      [tools[0]] + ListedTools(policy, principal, tools[1..])
    else ListedTools(policy, principal, tools[1..])
  }

  ghost function Shifted(places: seq<nat>): seq<nat> { seq(|places|, k requires 0 <= k < |places| => places[k] + 1) }

  lemma InShifted(places: seq<nat>, i: nat)
    ensures i in Shifted(places) <==> i > 0 && i - 1 in places
  {
    if i > 0 && i - 1 in places {
      var k :| 0 <= k < |places| && places[k] == i - 1;
      assert Shifted(places)[k] == i;
    }
  }

  /** `places` picks out of `tools` each allowed one, once and in order. */
  ghost predicate PicksAllowed(policy: PolicyConfig, principal: string, tools: seq<Tool>, places: seq<nat>) {
    && (forall k :: 0 <= k < |places| ==> places[k] < |tools|)
    && (forall k, l :: 0 <= k < l < |places| ==> places[k] < places[l])
    && (forall i :: 0 <= i < |tools| ==> (i in places <==> Allows(policy, principal, tools[i].name)))
  }

  lemma PicksOneMore(policy: PolicyConfig, principal: string, tools: seq<Tool>, rest: seq<nat>)
    requires tools != [] && PicksAllowed(policy, principal, tools[1..], rest)
    ensures PicksAllowed(policy, principal, tools,
                         (if Allows(policy, principal, tools[0].name) then [0] else []) + Shifted(rest))
  {
    var places := (if Allows(policy, principal, tools[0].name) then [0] else []) + Shifted(rest);
    forall i | 0 <= i < |tools| ensures i in places <==> Allows(policy, principal, tools[i].name) {
      InShifted(rest, i);
      if i > 0 { assert tools[1..][i - 1] == tools[i]; }
    }
  }

  ghost function ToolsAt(tools: seq<Tool>, places: seq<nat>): seq<Tool>
    requires forall k :: 0 <= k < |places| ==> places[k] < |tools|
  {
    seq(|places|, k requires 0 <= k < |places| => tools[places[k]])
  }

  lemma ToolsAtShifted(tools: seq<Tool>, rest: seq<nat>)
    requires tools != [] && forall k :: 0 <= k < |rest| ==> rest[k] < |tools[1..]|
    ensures ToolsAt(tools, Shifted(rest)) == ToolsAt(tools[1..], rest)
    ensures ToolsAt(tools, [0] + Shifted(rest)) == [tools[0]] + ToolsAt(tools[1..], rest)
  {
  }

  /** The listing is the upstream's tools at certain places: each allowed one, as
      often as the upstream lists it, in the upstream's order. */
  lemma {:induction false} ListedIffAllows(policy: PolicyConfig, principal: string, tools: seq<Tool>)
      returns (places: seq<nat>)
    ensures PicksAllowed(policy, principal, tools, places)
    ensures ListedTools(policy, principal, tools) == ToolsAt(tools, places)
  {
    if tools == [] {
      places := [];
    } else {
      var rest := ListedIffAllows(policy, principal, tools[1..]);
      PicksOneMore(policy, principal, tools, rest);
      ToolsAtShifted(tools, rest);
      if Allows(policy, principal, tools[0].name) {
        places := [0] + Shifted(rest);
      } else {
        places := Shifted(rest);
        assert [] + Shifted(rest) == places;
      }
    }
  }

  /** A listed tool goes by that name. */
  ghost predicate Discoverable(policy: PolicyConfig, principal: string, tools: seq<Tool>, name: string) {
    exists t :: t in ListedTools(policy, principal, tools) && t.name == name
  }

  lemma DiscoverableIffAllowedAndFound(policy: PolicyConfig, principal: string, tools: seq<Tool>, name: string)
    ensures Discoverable(policy, principal, tools, name) <==>
              Allows(policy, principal, name) && FindTool(tools, name).Some?
  {
    var places := ListedIffAllows(policy, principal, tools);
    var listed := ListedTools(policy, principal, tools);
    if FindTool(tools, name).Some? && Allows(policy, principal, name) {
      var i :| 0 <= i < |tools| && tools[i] == FindTool(tools, name).value;
      assert i in places;
      var k :| 0 <= k < |places| && places[k] == i;
      assert listed[k] in listed && listed[k].name == name;
    }
    if t :| t in listed && t.name == name {
      var k :| 0 <= k < |listed| && listed[k] == t;
      assert tools[places[k]] == t && places[k] in places;
    }
  }

  // ----- One answer for every tool a caller may not use -----

  /** The list the call works with, if it gets one. */
  ghost function ServedList(g: Shared, answers: Answers): Option<seq<Tool>> {
    if g.cache.tools.Some? then g.cache.tools
    else if answers.fetch.Lists? then Some(answers.fetch.tools)
    else None
  }

  /** The call gets a token, and the tool is either not allowed or absent from a
      list that was served. Only an allowed call needs a list at all. */
  ghost predicate Hidden(c: Config, g: Shared, r: Request, answers: Answers) {
    && Rate.Admits(Law(c), g.levels, r.principal, g.now)
    && (Allows(c.policy, r.principal, r.tool) ==>
          ServedList(g, answers).Some? && FindTool(ServedList(g, answers).value, r.tool).None?)
  }

  /** A call ends as an unknown tool exactly when it gets a token and its tool is
      hidden from it. Over one and the same served list, that is exactly when
      discovery does not show the name. */
  lemma DiscoverableIffNotUnknown(c: Config, id: nat, g: Shared, r: Request, answers: Answers)
    ensures EndingOf(c, id, g, r, answers) == Refused(id, PolicyDenied, UnknownTool(r.tool)) <==>
              Hidden(c, g, r, answers)
    ensures ServedList(g, answers).Some? ==>
              (Hidden(c, g, r, answers) <==>
                 Rate.Admits(Law(c), g.levels, r.principal, g.now)
                 && !Discoverable(c.policy, r.principal, ServedList(g, answers).value, r.tool))
  {
    if ServedList(g, answers).Some? {
      DiscoverableIffAllowedAndFound(c.policy, r.principal, ServedList(g, answers).value, r.tool);
    }
  }

  /** No rule, an explicit deny, and a tool the upstream lacks: a hidden call ends
      as another call of that name exactly if the other is hidden too, whatever
      else differs in policy, state and upstream. */
  lemma DenialsLookAlike(c: Config, c': Config, id: nat, g: Shared, g': Shared, r: Request, r': Request,
                         answers: Answers, answers': Answers)
    requires r.tool == r'.tool && Hidden(c, g, r, answers)
    ensures EndingOf(c, id, g, r, answers) == EndingOf(c', id, g', r', answers') <==> Hidden(c', g', r', answers')
  {
    DiscoverableIffNotUnknown(c, id, g, r, answers);
    DiscoverableIffNotUnknown(c', id, g', r', answers');
  }

  /** Where the promise stops: nothing is cached and the fetch fails. A call without
      an allow rule is still answered as an unknown tool, for it never fetches; an
      allowed call raises, whether or not the upstream has the tool. */
  lemma FailingFetchTellsThemApart(c: Config, id: nat, g: Shared, denied: Request, allowed: Request, answers: Answers)
    requires g.cache.tools == None && !answers.fetch.Lists? && denied.tool == allowed.tool
    requires Rate.Admits(Law(c), g.levels, denied.principal, g.now)
             && Rate.Admits(Law(c), g.levels, allowed.principal, g.now)
    requires !Allows(c.policy, denied.principal, denied.tool) && Allows(c.policy, allowed.principal, allowed.tool)
    ensures EndingOf(c, id, g, denied, answers) == Refused(id, PolicyDenied, UnknownTool(denied.tool))
    ensures EndingOf(c, id, g, allowed, answers).exit.Raise?
  {
  }

  // ----- A deny rule against no rule -----

  ghost function WithoutRule(policy: PolicyConfig, principal: string, tool: string): PolicyConfig
    requires principal in policy.principals
  {
    PolicyConfig(policy.principals[principal := policy.principals[principal] - {tool}])
  }

  ghost predicate Denies(policy: PolicyConfig, principal: string, tool: string) {
    HasRule(policy, principal, tool) && policy.principals[principal][tool].effect == Deny
  }

  lemma WithoutDenyResolvesTheSame(policy: PolicyConfig, principal: string, tool: string, p: string, t: string)
    requires Denies(policy, principal, tool)
    ensures ResolveToolPolicy(WithoutRule(policy, principal, tool), p, t) == ResolveToolPolicy(policy, p, t)
    ensures HasRule(WithoutRule(policy, principal, tool), p, t) <==>
              HasRule(policy, p, t) && !(p == principal && t == tool)
  {
  }

  ghost function WithoutDeny(c: Config, principal: string, tool: string): Config
    requires Denies(c.policy, principal, tool)
  {
    c.(policy := WithoutRule(c.policy, principal, tool))
  }

  /** Without the matched rule of calls by `principal` of `tool`. */
  ghost function Blind(a: Attempt, principal: string, tool: string): Attempt {
    a.(matchedRule := if a.principal == principal && a.tool == tool then None else a.matchedRule)
  }

  ghost function BlindRecord(r: AuditRecord, principal: string, tool: string): AuditRecord {
    r.(matchedRule := if r.principal == principal && r.toolName == tool then None else r.matchedRule)
  }

  ghost function BlindLog(log: seq<AuditRecord>, principal: string, tool: string): seq<AuditRecord> {
    seq(|log|, i requires 0 <= i < |log| => BlindRecord(log[i], principal, tool))
  }

  ghost function BlindShared(g: Shared, principal: string, tool: string): Shared {
    g.(log := BlindLog(g.log, principal, tool))
  }

  ghost function BlindSystem(s: System, principal: string, tool: string): System {
    System(map id | id in s.attempts :: Blind(s.attempts[id], principal, tool), BlindShared(s.shared, principal, tool))
  }

  // Only authorization looks at the policy, only a write at the matched rule.

  ghost predicate SamePlant(c: Config, c': Config) { c' == c.(policy := c'.policy) }

  /** The action neither reads nor changes the matched rule, and leaves the log be. */
  ghost predicate IgnoresRule(c: Config, c': Config, id: nat, g: Shared, a: Attempt, action: Action,
                              rule: Option<string>, log: seq<AuditRecord>)
    requires Can(id, g, a, action)
  {
    var (g', a') := Perform(c, id, g, a, action);
    && Perform(c', id, g.(log := log), a.(matchedRule := rule), action) == (g'.(log := log), a'.(matchedRule := rule))
    && g'.log == g.log && a'.matchedRule == a.matchedRule && SameRequest(a, a')
  }

  lemma RateIgnoresRule(c: Config, c': Config, id: nat, g: Shared, a: Attempt, rule: Option<string>,
                        log: seq<AuditRecord>)
    requires SamePlant(c, c') && a.pc == Arrived
    ensures IgnoresRule(c, c', id, g, a, CheckRate, rule, log)
  {
    if Rate.Admits(Law(c), g.levels, a.principal, g.now) {
    } else {
    }
  }

  lemma AcceptedIgnoresRule(c: Config, c': Config, id: nat, g: Shared, a: Attempt, rule: Option<string>,
                            log: seq<AuditRecord>)
    requires SamePlant(c, c') && a.pc == Checking && a.upstreamTools.Some?
    requires var found := FindTool(a.upstreamTools.value, a.tool);
             found.Some? && SchemaAccepts(c, found.value, a.arguments)
    ensures IgnoresRule(c, c', id, g, a, CheckSchema, rule, log)
  {
  }

  lemma RejectedIgnoresRule(c: Config, c': Config, id: nat, g: Shared, a: Attempt, rule: Option<string>,
                            log: seq<AuditRecord>)
    requires SamePlant(c, c') && a.pc == Checking && a.upstreamTools.Some?
    requires var found := FindTool(a.upstreamTools.value, a.tool);
             found.Some? && !SchemaAccepts(c, found.value, a.arguments)
    ensures IgnoresRule(c, c', id, g, a, CheckSchema, rule, log)
  {
  }

  lemma SchemaIgnoresRule(c: Config, c': Config, id: nat, g: Shared, a: Attempt, rule: Option<string>,
                          log: seq<AuditRecord>)
    requires SamePlant(c, c') && a.pc == Checking && a.upstreamTools.Some?
    ensures IgnoresRule(c, c', id, g, a, CheckSchema, rule, log)
  {
    var found := FindTool(a.upstreamTools.value, a.tool);
    if found.Some? {
      if SchemaAccepts(c, found.value, a.arguments) { AcceptedIgnoresRule(c, c', id, g, a, rule, log); }
      else { RejectedIgnoresRule(c, c', id, g, a, rule, log); }
    }
  }

  lemma PolicyIgnoresRule(c: Config, c': Config, id: nat, g: Shared, a: Attempt, rule: Option<string>,
                          log: seq<AuditRecord>)
    requires SamePlant(c, c') && a.pc == Evaluating && a.toolPolicy.Some?
    ensures IgnoresRule(c, c', id, g, a, EvaluatePolicy, rule, log)
  {
    if Accepts(a.toolPolicy.value, a.arguments, c.fullmatch) {
    } else {
    }
  }

  lemma SlotIgnoresRule(c: Config, c': Config, id: nat, g: Shared, a: Attempt, rule: Option<string>,
                        log: seq<AuditRecord>)
    requires SamePlant(c, c') && a.pc == Acquiring
    ensures IgnoresRule(c, c', id, g, a, AcquireSlot, rule, log)
  {
    if Slot.HasRoom(g.slots, c.maxConcurrent, a.principal) {
    } else {
    }
  }

  lemma EnterIgnoresRule(c: Config, c': Config, id: nat, g: Shared, a: Attempt, rule: Option<string>,
                         log: seq<AuditRecord>)
    requires SamePlant(c, c') && Can(id, g, a, EnterCache)
    ensures IgnoresRule(c, c', id, g, a, EnterCache, rule, log)
  {
    if g.cache.tools.Some? {
    } else {
    }
  }

  lemma FetchIgnoresRule(c: Config, c': Config, id: nat, g: Shared, a: Attempt, action: Action,
                         rule: Option<string>, log: seq<AuditRecord>)
    requires SamePlant(c, c') && Can(id, g, a, action) && AtCache(action) && action != Cancel && action != EnterCache
    ensures IgnoresRule(c, c', id, g, a, action, rule, log)
  {
    match action
    case FetchReturn(_) =>
    case FetchFail =>
  }

  lemma CancelIgnoresRule(c: Config, c': Config, id: nat, g: Shared, a: Attempt, rule: Option<string>,
                          log: seq<AuditRecord>)
    requires SamePlant(c, c') && Can(id, g, a, Cancel) && a.pc != Calling
    ensures IgnoresRule(c, c', id, g, a, Cancel, rule, log)
  {
    match a.pc
    case CacheWait =>
    case Fetching =>
  }

  lemma CallIgnoresRule(c: Config, c': Config, id: nat, g: Shared, a: Attempt, action: Action,
                        rule: Option<string>, log: seq<AuditRecord>)
    requires SamePlant(c, c') && Can(id, g, a, action) && a.pc == Calling && !action.UpstreamReturns?
    ensures IgnoresRule(c, c', id, g, a, action, rule, log)
  {
    if action == Cancel { CancelledCallIgnoresRule(c, c', id, g, a, rule, log); }
    else { EndedCallIgnoresRule(c, c', id, g, a, action, rule, log); }
  }

  lemma CancelledCallIgnoresRule(c: Config, c': Config, id: nat, g: Shared, a: Attempt,
                                 rule: Option<string>, log: seq<AuditRecord>)
    requires SamePlant(c, c') && a.pc == Calling
    ensures IgnoresRule(c, c', id, g, a, Cancel, rule, log)
  {
  }

  lemma EndedCallIgnoresRule(c: Config, c': Config, id: nat, g: Shared, a: Attempt, action: Action,
                             rule: Option<string>, log: seq<AuditRecord>)
    requires SamePlant(c, c') && a.pc == Calling && action in {UpstreamTimesOut, UpstreamFails}
    ensures IgnoresRule(c, c', id, g, a, action, rule, log)
  {
    match action
    case UpstreamTimesOut =>
    case UpstreamFails =>
  }

  lemma ReplyIgnoresRule(c: Config, c': Config, id: nat, g: Shared, a: Attempt, result: CallResult,
                         rule: Option<string>, log: seq<AuditRecord>)
    requires SamePlant(c, c') && a.pc == Calling
    ensures IgnoresRule(c, c', id, g, a, UpstreamReturns(result), rule, log)
  {
  }

  lemma ExitIgnoresRule(c: Config, c': Config, id: nat, g: Shared, a: Attempt, action: Action,
                        rule: Option<string>, log: seq<AuditRecord>)
    requires SamePlant(c, c') && Can(id, g, a, action) && action in {LeaveScope, Unwind, Crash}
    ensures IgnoresRule(c, c', id, g, a, action, rule, log)
  {
    match action
    case LeaveScope =>
    case Unwind =>
    case Crash =>
  }

  lemma MostIgnoreRule(c: Config, c': Config, id: nat, g: Shared, a: Attempt, action: Action,
                       rule: Option<string>, log: seq<AuditRecord>)
    requires SamePlant(c, c') && Can(id, g, a, action) && action != Authorize && action != Write
             && !action.InterruptWrite?
    ensures IgnoresRule(c, c', id, g, a, action, rule, log)
  {
    match action
    case CheckRate => RateIgnoresRule(c, c', id, g, a, rule, log);
    case CheckSchema => SchemaIgnoresRule(c, c', id, g, a, rule, log);
    case EvaluatePolicy => PolicyIgnoresRule(c, c', id, g, a, rule, log);
    case AcquireSlot => SlotIgnoresRule(c, c', id, g, a, rule, log);
    case Cancel =>
      if a.pc == Calling { CallIgnoresRule(c, c', id, g, a, action, rule, log); }
      else { CancelIgnoresRule(c, c', id, g, a, rule, log); }
    case EnterCache => EnterIgnoresRule(c, c', id, g, a, rule, log);
    case FetchReturn(_) => FetchIgnoresRule(c, c', id, g, a, action, rule, log);
    case FetchFail => FetchIgnoresRule(c, c', id, g, a, action, rule, log);
    case LeaveScope => ExitIgnoresRule(c, c', id, g, a, action, rule, log);
    case Unwind => ExitIgnoresRule(c, c', id, g, a, action, rule, log);
    case Crash => ExitIgnoresRule(c, c', id, g, a, action, rule, log);
    case UpstreamReturns(result) => ReplyIgnoresRule(c, c', id, g, a, result, rule, log);
    case _ => CallIgnoresRule(c, c', id, g, a, action, rule, log);
  }

  lemma AuthorizeBlind(c: Config, principal: string, tool: string, id: nat, a: Attempt)
    requires Denies(c.policy, principal, tool)
    ensures AuthorizeStep(WithoutDeny(c, principal, tool), id, Blind(a, principal, tool))
            == Blind(AuthorizeStep(c, id, a), principal, tool)
  {
    WithoutDenyResolvesTheSame(c.policy, principal, tool, a.principal, a.tool);
    if ResolveToolPolicy(c.policy, a.principal, a.tool).Some? {
    } else if a.principal == principal && a.tool == tool {
    } else {
    }
  }

  lemma RecordBlind(principal: string, tool: string, id: nat, g: Shared, a: Attempt)
    requires AtWrite(a.pc)
    ensures BlindShared(g.(log := g.log + [RecordOf(id, a)]), principal, tool)
         == BlindShared(g, principal, tool).(
              log := BlindLog(g.log, principal, tool) + [RecordOf(id, Blind(a, principal, tool))])
  {
    assert RecordOf(id, Blind(a, principal, tool)) == BlindRecord(RecordOf(id, a), principal, tool);
    assert BlindLog(g.log + [RecordOf(id, a)], principal, tool)
        == BlindLog(g.log, principal, tool) + [BlindRecord(RecordOf(id, a), principal, tool)];
  }

  lemma WrittenBlind(a: Attempt, principal: string, tool: string)
    requires AtWrite(a.pc)
    ensures WrittenStep(Blind(a, principal, tool)) == Blind(WrittenStep(a), principal, tool)
  {
  }

  lemma InterruptedBlind(a: Attempt, principal: string, tool: string, cause: Cause, landed: bool)
    requires AtWrite(a.pc)
    ensures InterruptedStep(Blind(a, principal, tool), cause, landed)
            == Blind(InterruptedStep(a, cause, landed), principal, tool)
  {
  }

  ghost predicate PerformsBlindly(c: Config, c': Config, principal: string, tool: string, id: nat, g: Shared,
                                  a: Attempt, action: Action)
    requires Can(id, g, a, action)
  {
    && Can(id, BlindShared(g, principal, tool), Blind(a, principal, tool), action)
    && var (g', a') := Perform(c, id, g, a, action);
       Perform(c', id, BlindShared(g, principal, tool), Blind(a, principal, tool), action)
       == (BlindShared(g', principal, tool), Blind(a', principal, tool))
  }

  lemma WriteBlind(c: Config, principal: string, tool: string, id: nat, g: Shared, a: Attempt)
    requires Denies(c.policy, principal, tool) && AtWrite(a.pc)
    ensures PerformsBlindly(c, WithoutDeny(c, principal, tool), principal, tool, id, g, a, Write)
  {
    RecordBlind(principal, tool, id, g, a);
    WrittenBlind(a, principal, tool);
  }

  lemma CutBlind(c: Config, principal: string, tool: string, id: nat, g: Shared, a: Attempt, cause: Cause, landed: bool)
    requires Denies(c.policy, principal, tool) && AtWrite(a.pc)
    ensures PerformsBlindly(c, WithoutDeny(c, principal, tool), principal, tool, id, g, a,
                            InterruptWrite(cause, landed))
  {
    RecordBlind(principal, tool, id, g, a);
    InterruptedBlind(a, principal, tool, cause, landed);
  }

  lemma MostBlind(c: Config, principal: string, tool: string, id: nat, g: Shared, a: Attempt, action: Action)
    requires Denies(c.policy, principal, tool) && Can(id, g, a, action)
    requires action != Authorize && action != Write && !action.InterruptWrite?
    ensures PerformsBlindly(c, WithoutDeny(c, principal, tool), principal, tool, id, g, a, action)
  {
    MostIgnoreRule(c, WithoutDeny(c, principal, tool), id, g, a, action,
                   Blind(a, principal, tool).matchedRule, BlindLog(g.log, principal, tool));
  }

  lemma PerformBlind(c: Config, principal: string, tool: string, id: nat, g: Shared, a: Attempt, action: Action)
    requires Denies(c.policy, principal, tool) && Can(id, g, a, action)
    ensures PerformsBlindly(c, WithoutDeny(c, principal, tool), principal, tool, id, g, a, action)
  {
    match action
    case Authorize => AuthorizeBlind(c, principal, tool, id, a);
    case Write => WriteBlind(c, principal, tool, id, g, a);
    case InterruptWrite(cause, landed) => CutBlind(c, principal, tool, id, g, a, cause, landed);
    case _ => MostBlind(c, principal, tool, id, g, a, action);
  }

  lemma ApplyBlind(c: Config, principal: string, tool: string, s: System, step: Step)
    requires Denies(c.policy, principal, tool) && Possible(s, step)
    ensures Possible(BlindSystem(s, principal, tool), step)
    ensures Apply(WithoutDeny(c, principal, tool), BlindSystem(s, principal, tool), step)
            == BlindSystem(Apply(c, s, step), principal, tool)
  {
    if step.Act? {
      PerformBlind(c, principal, tool, step.id, s.shared, s.attempts[step.id], step.action);
    }
    assert Apply(WithoutDeny(c, principal, tool), BlindSystem(s, principal, tool), step).attempts
        == BlindSystem(Apply(c, s, step), principal, tool).attempts;
  }

  ghost function BlindStates(states: seq<System>, principal: string, tool: string): seq<System> {
    seq(|states|, i requires 0 <= i < |states| => BlindSystem(states[i], principal, tool))
  }

  lemma {:induction false} RunStaysBlind(c: Config, principal: string, tool: string, start: real,
                                         states: seq<System>, steps: seq<Step>)
    requires Denies(c.policy, principal, tool) && Pipeline.Run(c, start, states, steps)
    ensures Pipeline.Run(WithoutDeny(c, principal, tool), start, BlindStates(states, principal, tool), steps)
  {
    var blind := BlindStates(states, principal, tool);
    assert blind[0] == Initial(start);
    forall i | 0 <= i < |steps|
      ensures Possible(blind[i], steps[i]) && blind[i + 1] == Apply(WithoutDeny(c, principal, tool), blind[i], steps[i])
    {
      ApplyBlind(c, principal, tool, states[i], steps[i]);
    }
  }

  /** What is possible does not depend on matched rules. */
  lemma PossibleUnlessBlind(s: System, principal: string, tool: string, step: Step)
    requires Possible(BlindSystem(s, principal, tool), step)
    ensures Possible(s, step)
  {
  }

  /** Dropping an explicit deny changes nothing but matched rules in the audit
      trail: whatever steps make a run under one policy make a run under the other,
      through the same states up to those. */
  lemma {:induction false} DenyRuleActsAsNoRule(c: Config, principal: string, tool: string, start: real,
                                                states': seq<System>, steps: seq<Step>)
      returns (states: seq<System>)
    requires Denies(c.policy, principal, tool) && Pipeline.Run(WithoutDeny(c, principal, tool), start, states', steps)
    ensures Pipeline.Run(c, start, states, steps) && BlindStates(states, principal, tool) == states'
  {
    if steps == [] {
      states := [Initial(start)];
      assert BlindSystem(Initial(start), principal, tool) == Initial(start);
      assert BlindStates(states, principal, tool) == states';
    } else {
      var last := |steps| - 1;
      var earlier := DenyRuleActsAsNoRule(c, principal, tool, start, states'[..|steps|], steps[..last]);
      assert states'[last] == BlindSystem(earlier[last], principal, tool) by {
        assert BlindStates(earlier, principal, tool)[last] == states'[..|steps|][last];
      }
      PossibleUnlessBlind(earlier[last], principal, tool, steps[last]);
      ApplyBlind(c, principal, tool, earlier[last], steps[last]);
      OneMoreStep(c, start, earlier, steps[..last], steps[last]);
      states := earlier + [Apply(c, earlier[last], steps[last])];
      assert steps[..last] + [steps[last]] == steps;
      assert states'[last + 1] == Apply(WithoutDeny(c, principal, tool), states'[last], steps[last]);
      assert BlindStates(states, principal, tool) == BlindStates(earlier, principal, tool) + [states'[last + 1]];
    }
  }

  /** The records in which the deny shows: those that say the policy failed this
      principal on this tool. */
  lemma DenyShowsExactly(c: Config, principal: string, tool: string, start: real, states: seq<System>, steps: seq<Step>,
                         s: System, r: AuditRecord)
    requires Denies(c.policy, principal, tool) && Reached(c, start, states, steps, s) && r in s.shared.log
    ensures BlindRecord(r, principal, tool) != r <==>
              r.principal == principal && r.toolName == tool && r.policyResult == Failed
  {
    var a := RecordedAttempt(c, start, states, steps, s, r);
    assert SameStages(r, a) && StageFacts(c, a);
    assert a.principal == principal && a.tool == tool ==> a.toolPolicy == None && HasRule(c.policy, principal, tool);
  }

  lemma {:induction false} DenyRuleListsTheSame(policy: PolicyConfig, principal: string, tool: string, p: string,
                                                tools: seq<Tool>)
    requires Denies(policy, principal, tool)
    ensures ListedTools(WithoutRule(policy, principal, tool), p, tools) == ListedTools(policy, p, tools)
  {
    if tools != [] {
      WithoutDenyResolvesTheSame(policy, principal, tool, p, tools[0].name);
      DenyRuleListsTheSame(policy, principal, tool, p, tools[1..]);
    }
  }
}
