/** Why attempts end as they do, over whole runs: each stage decides by what is
    configured and by what stands at that step, and by nothing else. */
module Verdicts {
  import opened Wrappers
  import opened Json
  import opened ArgumentPolicy
  import opened AuditLog
  import opened ToolCache
  import opened Pipeline
  import opened PipelineInvariants
  import opened PipelineTheorems
  import opened PipelineAudit
  import TokenBucket
  import Rate = RateLimiter
  import Slot = ConcurrencyLimiter

  // ----- The stages -----

  /** A list served to the attempt; `found` is its first tool of that name. */
  ghost predicate WasServed(s: System, id: nat, tool: string, tools: seq<Tool>, found: Option<Tool>) {
    Served(Call(id), tools) in s.shared.cache.history && FindTool(tools, tool) == found
  }

  /** What the stage results of an attempt, or of a record, say of the policy as it
      is configured, of the lists served, and of the arguments. */
  ghost predicate Deserved(c: Config, s: System, id: nat, principal: string, tool: string, arguments: Arguments,
                           rate: StageResult, schema: StageResult, policy: StageResult)
  {
    && (policy == Passed ==>
          Allows(c.policy, principal, tool)
          && Accepts(c.policy.principals[principal][tool], arguments, c.fullmatch))
    && (policy == Failed && schema == Passed ==>
          Allows(c.policy, principal, tool)
          && !Accepts(c.policy.principals[principal][tool], arguments, c.fullmatch))
    && (policy == Failed && schema == NotEvaluated ==>
          !Allows(c.policy, principal, tool) || exists tools :: WasServed(s, id, tool, tools, None))
    && (schema == Passed ==>
          exists tools, found: Tool ::
            WasServed(s, id, tool, tools, Some(found)) && SchemaPasses(c, found.inputSchema, arguments))
    && (schema == Failed ==>
          exists tools, found: Tool ::
            WasServed(s, id, tool, tools, Some(found)) && !SchemaPasses(c, found.inputSchema, arguments))
    && (rate == Passed ==> id in Rate.GrantedIds(Law(c), s.shared.rateLog, 0, |s.shared.rateLog|, principal))
  }

  lemma StagesOfAnAttempt(c: Config, start: real, states: seq<System>, steps: seq<Step>, s: System, id: nat)
    requires Reached(c, start, states, steps, s) && id in s.attempts
    ensures var a := s.attempts[id];
            Deserved(c, s, id, a.principal, a.tool, a.arguments, a.rate, a.schema, a.policy)
  {
    var a := s.attempts[id];
    assert StageFacts(c, a) && ServedLinked(s) && RateLinked(c, start, s) by {
      Reachable(c, start, states, steps, |steps|);
      assert LocalOk(c, id, a);
    }
    ResolvesToTheEntry(c.policy, a.principal, a.tool);
    if a.schema != NotEvaluated {
      assert WasServed(s, id, a.tool, a.upstreamTools.value, Some(a.upstreamTool.value));
    } else if a.policy == Failed && a.toolPolicy.Some? {
      assert WasServed(s, id, a.tool, a.upstreamTools.value, None);
    }
  }

  /** Every stage result on record is deserved. */
  lemma StagesAreDeserved(c: Config, start: real, states: seq<System>, steps: seq<Step>, s: System, r: AuditRecord)
    requires Reached(c, start, states, steps, s) && r in s.shared.log
    ensures exists arguments ::
              && r.arguments == Object(arguments)
              && Deserved(c, s, r.correlationId, r.principal, r.toolName, arguments,
                          r.rateLimitResult, r.schemaResult, r.policyResult)
  {
    var a := RecordedAttempt(c, start, states, steps, s, r);
    StagesOfAnAttempt(c, start, states, steps, s, r.correlationId);
    assert r.arguments == Object(a.arguments);
  }

  /** A record past authorization names the matched rule exactly when the policy has
      an entry for that principal and tool. */
  lemma MatchedRuleIsTheEntry(c: Config, start: real, states: seq<System>, steps: seq<Step>, s: System, r: AuditRecord)
    requires Reached(c, start, states, steps, s) && r in s.shared.log
    requires r.policyResult != NotEvaluated || r.schemaResult != NotEvaluated
    ensures r.matchedRule == if r.principal in c.policy.principals && r.toolName in c.policy.principals[r.principal]
                             then Some(r.toolName) else None
  {
    var a := RecordedAttempt(c, start, states, steps, s, r);
    ResolvesToTheEntry(c.policy, a.principal, a.tool);
  }

  // ----- Slots -----

  /** At the step, over the attempts that then hold a slot, and no other way. */
  lemma SlotGrantedExactly(c: Config, start: real, states: seq<System>, steps: seq<Step>, n: nat, id: nat)
    requires ValidConfig(c) && Pipeline.Run(c, start, states, steps) && n < |steps| && steps[n] == Act(id, AcquireSlot)
    ensures id in states[n].attempts && id in states[n + 1].attempts
    ensures var before, after := states[n].attempts, states[n + 1].attempts[id];
            var held := |Holders(before, before[id].principal)|;
            && held <= c.maxConcurrent && after.principal == before[id].principal
            && (after.slotHeld <==> held < c.maxConcurrent)
            && (after.concurrency == Passed <==> held < c.maxConcurrent)
            && (after.concurrency == Failed <==> held == c.maxConcurrent)
  {
    assert SlotsLinked(c, states[n]) && PcFits(c, id, states[n].attempts[id]) by {
      Reachable(c, start, states, steps, n);
      assert LocalOk(c, id, states[n].attempts[id]);
    }
    assert states[n + 1] == Apply(c, states[n], steps[n]);
  }

  /** The step at which the attempt asked for a slot, and how many were then held. */
  ghost predicate AskedAt(states: seq<System>, steps: seq<Step>, id: nat, n: nat, p: string, held: nat) {
    && n < |steps| && n < |states| && steps[n] == Act(id, AcquireSlot)
    && held == |Holders(states[n].attempts, p)|
  }

  ghost predicate SameClaim(a: Attempt, a': Attempt) { a'.concurrency == a.concurrency && a'.principal == a.principal }

  lemma StagesKeepClaim(c: Config, id: nat, g: Shared, a: Attempt, action: Action)
    requires Can(id, g, a, action) && action != AcquireSlot && !AtUpstream(action) && !AtCache(action)
    ensures SameClaim(a, Perform(c, id, g, a, action).1)
  {
    match action
    case CheckRate =>
      if Rate.Admits(Law(c), g.levels, a.principal, g.now) {
      } else {
      }
    case Authorize =>
    case CheckSchema => SchemaKeepsConcurrency(c, id, a);
    case EvaluatePolicy =>
    case Crash =>
  }

  lemma CacheMovesKeepClaim(c: Config, id: nat, g: Shared, a: Attempt, action: Action)
    requires Can(id, g, a, action) && AtCache(action)
    ensures SameClaim(a, Perform(c, id, g, a, action).1)
  {
    match action
    case EnterCache =>
    case FetchReturn(_) =>
    case FetchFail =>
    case Cancel =>
  }

  lemma UpstreamMovesKeepClaim(c: Config, id: nat, g: Shared, a: Attempt, action: Action)
    requires Can(id, g, a, action) && AtUpstream(action)
    ensures SameClaim(a, Perform(c, id, g, a, action).1)
  {
    match action
    case Write => WrittenCarries(a);
    case InterruptWrite(cause, landed) => InterruptedCarries(a, cause, landed);
    case _ =>
  }

  /** Only asking for a slot settles the concurrency stage. */
  lemma OthersKeepClaim(c: Config, id: nat, g: Shared, a: Attempt, action: Action)
    requires Can(id, g, a, action) && action != AcquireSlot
    ensures SameClaim(a, Perform(c, id, g, a, action).1)
  {
    if AtUpstream(action) { UpstreamMovesKeepClaim(c, id, g, a, action); }
    else if AtCache(action) { CacheMovesKeepClaim(c, id, g, a, action); }
    else { StagesKeepClaim(c, id, g, a, action); }
  }

  lemma SchemaKeepsConcurrency(c: Config, id: nat, a: Attempt)
    requires a.upstreamTools.Some?
    ensures SameClaim(a, SchemaStep(c, id, a))
  {
    var found := FindTool(a.upstreamTools.value, a.tool);
    if found.None? {
    } else if SchemaAccepts(c, found.value, a.arguments) {
    } else {
    }
  }

  lemma AskedJustNow(c: Config, start: real, states: seq<System>, steps: seq<Step>, m: nat, id: nat) returns (held: nat)
    requires ValidConfig(c) && Pipeline.Run(c, start, states, steps) && 0 < m < |states|
    requires steps[m - 1] == Act(id, AcquireSlot)
    ensures id in states[m].attempts
    ensures var a := states[m].attempts[id];
            && AskedAt(states, steps, id, m - 1, a.principal, held)
            && (a.concurrency == Failed <==> held == c.maxConcurrent)
            && (a.concurrency == Passed <==> held < c.maxConcurrent)
  {
    SlotGrantedExactly(c, start, states, steps, m - 1, id);
    held := |Holders(states[m - 1].attempts, states[m - 1].attempts[id].principal)|;
  }

  lemma StepKeepsClaim(c: Config, s: System, step: Step, id: nat)
    requires Possible(s, step) && step != Act(id, AcquireSlot)
    requires var t := Apply(c, s, step); id in t.attempts && t.attempts[id].concurrency != NotEvaluated
    ensures id in s.attempts && SameClaim(s.attempts[id], Apply(c, s, step).attempts[id])
  {
    if step.Act? && step.id == id { OthersKeepClaim(c, id, s.shared, s.attempts[id], step.action); }
  }

  /** An attempt was refused a slot only at a step at which exactly `maxConcurrent`
      slots were held for its principal, and given one only when fewer were. */
  lemma {:induction false} RefusedOnlyWhenFull(c: Config, start: real, states: seq<System>, steps: seq<Step>, m: nat,
                                               id: nat)
      returns (n: nat, held: nat)
    requires ValidConfig(c) && Pipeline.Run(c, start, states, steps) && m < |states|
    requires id in states[m].attempts && states[m].attempts[id].concurrency != NotEvaluated
    ensures n < m && AskedAt(states, steps, id, n, states[m].attempts[id].principal, held)
    ensures states[m].attempts[id].concurrency == Failed <==> held == c.maxConcurrent
    ensures states[m].attempts[id].concurrency == Passed <==> held < c.maxConcurrent
  {
    var before, step := states[m - 1], steps[m - 1];
    assert states[m - 1 + 1] == Apply(c, before, step);
    if step == Act(id, AcquireSlot) {
      n := m - 1;
      held := AskedJustNow(c, start, states, steps, m, id);
    } else {
      StepKeepsClaim(c, before, step, id);
      n, held := RefusedOnlyWhenFull(c, start, states, steps, m - 1, id);
    }
  }

  // ----- Tokens -----

  /** The use of the limiter that the step makes, and its outcome. */
  lemma TokenAsked(c: Config, start: real, states: seq<System>, steps: seq<Step>, n: nat, id: nat)
    requires ValidConfig(c) && Pipeline.Run(c, start, states, steps) && n < |steps| && steps[n] == Act(id, CheckRate)
    ensures id in states[n].attempts && id in states[n + 1].attempts
    ensures var events, a := states[n + 1].shared.rateLog, states[n].attempts[id];
            && events != [] && Rate.Orderly(start, events)
            && events[|events| - 1] == Rate.Acquire(id, a.principal, states[n].shared.now)
            && (states[n + 1].attempts[id].rate == Passed <==>
                  Rate.Admits(Law(c), Rate.LevelsAfter(Law(c), events, |events| - 1),
                              a.principal, states[n].shared.now))
  {
    var s, t := states[n], states[n + 1];
    assert t == Apply(c, s, steps[n]);
    assert RateLinked(c, start, s) && PcFits(c, id, s.attempts[id]) by {
      Reachable(c, start, states, steps, n);
      assert LocalOk(c, id, s.attempts[id]);
    }
    OneMoreUse(c, start, s, Rate.Acquire(id, s.attempts[id].principal, s.shared.now));
  }

  /** The limiter's decision in a run: the token is granted exactly when every window
      of the principal's own uses that ends here is within the configured rate. */
  lemma TokenGrantedExactly(c: Config, start: real, states: seq<System>, steps: seq<Step>, n: nat, id: nat)
    requires ValidConfig(c) && Pipeline.Run(c, start, states, steps) && n < |steps| && steps[n] == Act(id, CheckRate)
    ensures id in states[n].attempts && id in states[n + 1].attempts
    ensures var events := states[n + 1].shared.rateLog;
            var own := Rate.RequestsOf(events, |events|, states[n].attempts[id].principal);
            && own != [] && own[|own| - 1] == TokenBucket.Request(states[n].shared.now, 1.0)
            && (states[n + 1].attempts[id].rate == Passed <==>
                  1.0 <= c.capacity
                  && TokenBucket.AllWithinRate(c.capacity, c.refillRate, own,
                                               TokenBucket.Decisions(Law(c), start, own), |own| - 1))
  {
    TokenAsked(c, start, states, steps, n, id);
    var events, p := states[n + 1].shared.rateLog, states[n].attempts[id].principal;
    var last := |events| - 1;
    TokenBucket.ConstantRateIsValid(c.capacity, c.refillRate);
    Rate.DecisionIsOwnBucketDecision(Law(c), start, events, last);
    Rate.RequestsOfAreTimely(start, events, |events|, p);
    var own := Rate.RequestsOf(events, |events|, p);
    TokenBucket.GrantedExactlyWithinTheRate(c.capacity, c.refillRate, start, own, |own| - 1);
  }

  // ----- Interruptions -----

  /** The exception that an action throws at the attempt. */
  ghost function ThrownBy(action: Action): Option<Cause> {
    match action
    case Cancel => Some(Cancellation)
    case Crash => Some(Fault)
    case FetchFail => Some(Fault)
    case InterruptWrite(cause, _) => Some(cause)
    case _ => None
  }

  ghost function LastThrown(steps: seq<Step>, id: nat): Option<Cause> {
    if steps == [] then None
    else
      var step := steps[|steps| - 1];
      if step.Act? && step.id == id && ThrownBy(step.action).Some? then ThrownBy(step.action)
      else LastThrown(steps[..|steps| - 1], id)
  }

  /** The exception on its way out of the handler. */
  ghost function InFlightException(pc: Pc): Option<Cause> {
    match pc
    case Emitting(_, _, _, exit) => Thrown(exit)
    case LeavingScope(exit) => Thrown(exit)
    case Unwinding(cause) => Some(cause)
    case Recording(cause) => Some(cause)
    case Finished(exit) => Thrown(exit)
    case _ => None
  }

  ghost function Thrown(exit: Exit): Option<Cause> { if exit.Raise? then Some(exit.cause) else None }

  ghost predicate Carries(c: Config, id: nat, g: Shared, a: Attempt, action: Action)
    requires Can(id, g, a, action)
  {
    InFlightException(Perform(c, id, g, a, action).1.pc)
    == if ThrownBy(action).Some? then ThrownBy(action) else InFlightException(a.pc)
  }

  lemma StagesCarry(c: Config, id: nat, g: Shared, a: Attempt, action: Action)
    requires Can(id, g, a, action) && !AtUpstream(action) && !AtCache(action)
    ensures Carries(c, id, g, a, action)
  {
    match action
    case CheckRate =>
      if Rate.Admits(Law(c), g.levels, a.principal, g.now) {
      } else {
      }
    case Authorize =>
    case CheckSchema => SchemaCarries(c, id, a);
    case EvaluatePolicy =>
    case AcquireSlot =>
    case Crash =>
  }

  lemma SchemaCarries(c: Config, id: nat, a: Attempt)
    requires a.upstreamTools.Some?
    ensures InFlightException(SchemaStep(c, id, a).pc) == None
  {
  }

  lemma CacheMovesCarry(c: Config, id: nat, g: Shared, a: Attempt, action: Action)
    requires Can(id, g, a, action) && AtCache(action)
    ensures Carries(c, id, g, a, action)
  {
    match action
    case EnterCache =>
      if g.cache.tools.Some? {
      } else {
      }
    case FetchReturn(_) =>
    case FetchFail =>
    case Cancel =>
  }

  lemma UpstreamMovesCarry(c: Config, id: nat, g: Shared, a: Attempt, action: Action)
    requires Can(id, g, a, action) && AtUpstream(action)
    ensures Carries(c, id, g, a, action)
  {
    match action
    case Write => WrittenCarries(a);
    case InterruptWrite(cause, landed) => InterruptedCarries(a, cause, landed);
    case _ =>
  }

  lemma WrittenCarries(a: Attempt)
    requires AtWrite(a.pc)
    ensures InFlightException(WrittenStep(a).pc) == InFlightException(a.pc) && SameClaim(a, WrittenStep(a))
  {
    match a.pc
    case Emitting(_, _, _, exit) =>
      if exit.Raise? {
      } else {
      }
    case Recording(_) =>
  }

  lemma InterruptedCarries(a: Attempt, cause: Cause, landed: bool)
    requires AtWrite(a.pc)
    ensures InFlightException(InterruptedStep(a, cause, landed).pc) == Some(cause)
    ensures SameClaim(a, InterruptedStep(a, cause, landed))
  {
    match a.pc
    case Emitting(_, _, _, _) =>
    case Recording(_) =>
  }

  lemma ActionCarries(c: Config, id: nat, g: Shared, a: Attempt, action: Action)
    requires Can(id, g, a, action)
    ensures Carries(c, id, g, a, action)
  {
    if AtUpstream(action) { UpstreamMovesCarry(c, id, g, a, action); }
    else if AtCache(action) { CacheMovesCarry(c, id, g, a, action); }
    else { StagesCarry(c, id, g, a, action); }
  }

  lemma NothingThrownBefore(c: Config, start: real, states: seq<System>, steps: seq<Step>, n: nat, id: nat)
    requires Pipeline.Run(c, start, states, steps) && n < |states| && id !in states[n].attempts
    ensures LastThrown(steps[..n], id) == None
  {
    if n > 0 {
      assert states[n - 1 + 1] == Apply(c, states[n - 1], steps[n - 1]);
      assert steps[..n][..n - 1] == steps[..n - 1];
      NothingThrownBefore(c, start, states, steps, n - 1, id);
    }
  }

  /** The exception on its way out of an attempt, or out of the handler at last, is
      the last one thrown at it; one that nothing was thrown at returns. */
  lemma {:induction false} ExceptionIsTheLastThrown(c: Config, start: real, states: seq<System>, steps: seq<Step>,
                                                    n: nat, id: nat)
    requires Pipeline.Run(c, start, states, steps) && n < |states| && id in states[n].attempts
    ensures InFlightException(states[n].attempts[id].pc) == LastThrown(steps[..n], id)
  {
    var before, step := states[n - 1], steps[n - 1];
    assert states[n - 1 + 1] == Apply(c, before, step);
    assert steps[..n][..n - 1] == steps[..n - 1];
    if id !in before.attempts {
      NothingThrownBefore(c, start, states, steps, n - 1, id);
    } else {
      ExceptionIsTheLastThrown(c, start, states, steps, n - 1, id);
      if step.Act? && step.id == id {
        ActionCarries(c, id, before.shared, before.attempts[id], step.action);
      }
    }
  }

  // ----- Answers -----

  /** What each of the gateway's own answers tells: it is an error with this attempt's
      id and nothing else in its metadata, it names the tool, and it is deserved. */
  lemma AnswersAreDeserved(c: Config, start: real, states: seq<System>, steps: seq<Step>, s: System, id: nat)
    requires Reached(c, start, states, steps, s) && id in s.attempts && id !in s.shared.replies
    requires s.attempts[id].pc.Finished? && s.attempts[id].pc.exit.Return?
    ensures var a := s.attempts[id];
            var result := a.pc.exit.result;
            && result == CallResult(result.body, true, Some(map["correlation_id" := Int(id)]))
            && match result.body
               case RateLimitExceeded(name) => name == a.tool && a.rate == Failed
               case UnknownTool(name) =>
                 name == a.tool
                 && (!Allows(c.policy, a.principal, a.tool) || exists tools :: WasServed(s, id, a.tool, tools, None))
               case SchemaInvalid(name) =>
                 name == a.tool
                 && exists tools, found: Tool ::
                      WasServed(s, id, a.tool, tools, Some(found)) && !SchemaPasses(c, found.inputSchema, a.arguments)
               case PolicyInvalid(name) =>
                 name == a.tool && Allows(c.policy, a.principal, a.tool)
                 && !Accepts(c.policy.principals[a.principal][a.tool], a.arguments, c.fullmatch)
               case ConcurrencyExceeded(name) => name == a.tool && a.concurrency == Failed
               case UpstreamTimedOut(name) => name == a.tool && WasCalled(s.shared.calls, id)
               case UpstreamFailed(name) => name == a.tool && WasCalled(s.shared.calls, id)
               case FromUpstream(_) => false
  {
    var a := s.attempts[id];
    FinishedAttempt(c, start, states, steps, s, id);
    var i := FittingRecord(c, start, states, steps, s, id);
    var r := s.shared.log[i];
    RecordsTellTheTruth(c, start, states, steps, s, r);
    var b := RecordedAttempt(c, start, states, steps, s, r);
    StagesOfAnAttempt(c, start, states, steps, s, id);
    AnswerFitsRecord(r, a.pc.exit);
  }

  /** Read off the record that fits the exit. */
  lemma AnswerFitsRecord(r: AuditRecord, exit: Exit)
    requires ExitFits(r, None, exit) && exit.Return?
    ensures var result := exit.result;
            && result == CallResult(result.body, true, Some(map["correlation_id" := Int(r.correlationId)]))
            && match result.body
               case RateLimitExceeded(name) => name == r.toolName && r.outcome == RateLimited
               case UnknownTool(name) => name == r.toolName && r.outcome == PolicyDenied && r.schemaResult != Passed
               case SchemaInvalid(name) => name == r.toolName && r.outcome == SchemaRejected
               case PolicyInvalid(name) => name == r.toolName && r.outcome == PolicyDenied && r.schemaResult == Passed
               case ConcurrencyExceeded(name) => name == r.toolName && r.outcome == ConcurrencyRejected
               case UpstreamTimedOut(name) => name == r.toolName && r.outcome == UpstreamTimeout
               case UpstreamFailed(name) => name == r.toolName && r.outcome == UpstreamError
               case FromUpstream(_) => false
  {
  }
}
