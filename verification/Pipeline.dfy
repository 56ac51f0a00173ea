/** The `tools/call` pipeline (sentinelmcp/gateway/bridge.py) as a machine in
    which any number of attempts take their steps in any order over shared state.

    A step runs from one point where the handler may be suspended or may exit to
    the next. An audit write is one step: it completes, or it is interrupted with
    its line in the file or lost. */
module Pipeline {
  import opened Wrappers
  import opened Json
  import opened ArgumentPolicy
  import opened AuditLog
  import opened ToolCache
  import TokenBucket
  import Rate = RateLimiter
  import Slot = ConcurrencyLimiter

  // ----- Configuration -----

  /** `schemaOk(schema, arguments)` and `fullmatch` stand for the JSON Schema
      validator and the regular-expression matcher. */
  datatype Config = Config(
    policy: PolicyConfig,
    capacity: real,
    refillRate: real,
    maxConcurrent: int,
    schemaOk: (Json, Arguments) -> bool,
    fullmatch: (string, string) -> bool)

  ghost predicate ValidConfig(c: Config) {
    c.capacity > 0.0 && c.refillRate > 0.0 && c.maxConcurrent > 0
  }

  function Law(c: Config): TokenBucket.Schedule { TokenBucket.ConstantRate(c.capacity, c.refillRate) }

  predicate SchemaAccepts(c: Config, tool: Tool, arguments: Arguments) {
    tool.inputSchema.None? || c.schemaOk(tool.inputSchema.value, arguments)
  }

  /** The first tool of that name. */
  function FindTool(tools: seq<Tool>, name: string): (found: Option<Tool>)
    ensures found.Some? ==> found.value in tools && found.value.name == name
    ensures found.None? <==> forall t :: t in tools ==> t.name != name
  {
    if tools == [] then None
    else if tools[0].name == name then Some(tools[0])
    else FindTool(tools[1..], name)
  }

  /** The tool found is the one at the first place with that name. */
  lemma {:induction false} FindToolFindsTheFirst(tools: seq<Tool>, name: string, t: Tool)
    ensures FindTool(tools, name) == Some(t) <==>
              exists i :: 0 <= i < |tools| && tools[i] == t && t.name == name
                          && forall j :: 0 <= j < i ==> tools[j].name != name
  {
    if tools != [] && tools[0].name != name {
      FindToolFindsTheFirst(tools[1..], name, t);
      if FindTool(tools, name) == Some(t) {
        var i :| 0 <= i < |tools[1..]| && tools[1..][i] == t && forall j :: 0 <= j < i ==> tools[1..][j].name != name;
        assert forall j :: 0 < j < i + 1 ==> tools[j] == tools[1..][j - 1];
        assert tools[i + 1] == t;
      }
      if i :| 0 <= i < |tools| && tools[i] == t && t.name == name && forall j :: 0 <= j < i ==> tools[j].name != name {
        assert tools[1..][i - 1] == t && forall j :: 0 <= j < i - 1 ==> tools[1..][j] == tools[j + 1];
      }
    }
  }

  // ----- Results -----

  /** What a result says; the reason texts are left out. */
  datatype Body =
    | UnknownTool(name: string)
    | SchemaInvalid(name: string)
    | PolicyInvalid(name: string)
    | RateLimitExceeded(name: string)
    | ConcurrencyExceeded(name: string)
    | UpstreamTimedOut(name: string)
    | UpstreamFailed(name: string)
    | FromUpstream(content: Json)

  datatype CallResult = CallResult(body: Body, isError: bool, meta: Option<map<string, Json>>)

  function ErrorResult(body: Body): CallResult { CallResult(body, true, None) }

  const CORRELATION_KEY := "correlation_id"

  /** Stamp the correlation id over whatever metadata the result carries. */
  function Finalize(result: CallResult, id: nat): CallResult {
    var meta := if result.meta.Some? then result.meta.value else map[];
    result.(meta := Some(meta[CORRELATION_KEY := Int(id)]))
  }

  ghost predicate Stamped(result: CallResult, id: nat) {
    result.meta.Some? && "correlation_id" in result.meta.value && result.meta.value["correlation_id"] == Int(id)
  }

  /** Stamping wins over a forged id and leaves all else as the upstream sent it. */
  lemma FinalizeStampsAndKeepsTheRest(result: CallResult, id: nat)
    ensures Stamped(Finalize(result, id), id) && Finalize(result, id).meta.value["correlation_id"] == Int(id)
    ensures Finalize(result, id).body == result.body && Finalize(result, id).isError == result.isError
    ensures Finalize(result, id).meta.value - {"correlation_id"}
            == (if result.meta.Some? then result.meta.value else map[]) - {"correlation_id"}
  {
  }

  // ----- One attempt -----

  datatype Cause = Cancellation | Fault

  datatype Exit = Return(result: CallResult) | Raise(cause: Cause)

  /** Where an attempt stands. `Emitting` is the suspended audit write of the
      handler's body, with the exit that follows it; `LeavingScope` is the end of
      the `async with`; `Unwinding` is the outer exception clause, and `Recording`
      the audit write which that clause makes. */
  datatype Pc =
    | Arrived
    | Authorizing
    | CacheWait
    | Fetching
    | Checking
    | Evaluating
    | Acquiring
    | Calling
    | Emitting(outcome: Outcome, attempted: bool, category: Option<Category>, exit: Exit)
    | LeavingScope(exit: Exit)
    | Unwinding(cause: Cause)
    | Recording(cause: Cause)
    | Finished(exit: Exit)

  /** How an audit write ended: it returned, or it was cut short by a cancellation
      or an exception, its line `landed` in the file or not. */
  datatype WriteEnd = Completed | Cut(cause: Cause, landed: bool)

  predicate Landed(end: Option<WriteEnd>) {
    match end
    case None => false
    case Some(Completed) => true
    case Some(Cut(_, landed)) => landed
  }

  /** The handler's parameters and local variables. The last two follow how the
      audit writes of its body and of its outer exception clause ended. */
  datatype Attempt = Attempt(
    principal: string,
    tool: string,
    arguments: Arguments,
    pc: Pc,
    rate: StageResult,
    schema: StageResult,
    policy: StageResult,
    concurrency: StageResult,
    matchedRule: Option<string>,
    toolPolicy: Option<ToolPolicy>,
    upstreamTools: Option<seq<Tool>>,
    upstreamTool: Option<Tool>,
    policyLatency: bool,
    upstreamLatency: bool,
    slotHeld: bool,
    auditEmitted: bool,
    result: Option<CallResult>,
    bodyWrite: Option<WriteEnd>,
    outerWrite: Option<WriteEnd>)

  function NewAttempt(principal: string, tool: string, arguments: Arguments): Attempt {
    Attempt(principal, tool, arguments, Arrived, Failed, NotEvaluated, NotEvaluated, NotEvaluated,
            None, None, None, None, false, false, false, false, None, None, None)
  }

  predicate AtWrite(pc: Pc) { pc.Emitting? || pc.Recording? }

  /** What the outer exception clause records. */
  function InterruptionOutcome(cause: Cause): Outcome { if cause == Cancellation then Cancelled else InternalError }

  function RecordOf(id: nat, a: Attempt): AuditRecord
    requires AtWrite(a.pc)
  {
    var (outcome, attempted, category) :=
      match a.pc
      case Emitting(outcome, attempted, category, _) => (outcome, attempted, category)
      case Recording(cause) => (InterruptionOutcome(cause), false, None);
    AuditRecord(id, a.principal, a.tool, Object(a.arguments), outcome, a.matchedRule, a.schema, a.policy,
                a.rate, a.concurrency, attempted, category, a.policyLatency, a.upstreamLatency)
  }

  /** A rejection before the upstream is contacted. */
  function Reject(id: nat, a: Attempt, outcome: Outcome, body: Body): Attempt {
    a.(pc := Emitting(outcome, false, None, Return(Finalize(ErrorResult(body), id))))
  }

  /** The end of an upstream call. */
  function Concluded(a: Attempt, outcome: Outcome, category: Category, exit: Exit): Attempt {
    a.(upstreamLatency := true, pc := Emitting(outcome, true, Some(category), exit))
  }

  // ----- Shared state -----

  datatype UpstreamCall = UpstreamCall(id: nat, principal: string, tool: string, arguments: Arguments)

  /** `rateLog` lists the rate limiter's uses, `calls` what the upstream was sent,
      `replies` what it answered, by attempt. */
  datatype Shared = Shared(
    now: real,
    levels: Rate.Levels,
    rateLog: seq<Rate.Event>,
    slots: Slot.Slots,
    cache: Cache,
    calls: seq<UpstreamCall>,
    replies: map<nat, CallResult>,
    log: seq<AuditRecord>)

  // ----- Steps of one attempt -----

  /** The handler's own steps, with what the environment answers. `Crash` is an
      unexpected exception in a stage; `InterruptWrite` cancels an audit write or
      makes it fail. */
  datatype Action =
    | CheckRate
    | Authorize
    | EnterCache
    | FetchReturn(tools: seq<Tool>)
    | FetchFail
    | CheckSchema
    | EvaluatePolicy
    | AcquireSlot
    | UpstreamReturns(result: CallResult)
    | UpstreamTimesOut
    | UpstreamFails
    | Write
    | InterruptWrite(cause: Cause, landed: bool)
    | LeaveScope
    | Unwind
    | Cancel
    | Crash

  ghost predicate Can(id: nat, g: Shared, a: Attempt, action: Action) {
    match action
    case CheckRate => a.pc == Arrived
    case Authorize => a.pc == Authorizing
    case EnterCache => a.pc == CacheWait && g.cache.holder == None
    case FetchReturn(_) => a.pc == Fetching && g.cache.holder == Some(Call(id))
    case FetchFail => a.pc == Fetching && g.cache.holder == Some(Call(id))
    case CheckSchema => a.pc == Checking && a.upstreamTools.Some?
    case EvaluatePolicy => a.pc == Evaluating && a.toolPolicy.Some?
    case AcquireSlot => a.pc == Acquiring
    case UpstreamReturns(_) => a.pc == Calling
    case UpstreamTimesOut => a.pc == Calling
    case UpstreamFails => a.pc == Calling
    case Write => AtWrite(a.pc)
    case InterruptWrite(_, _) => AtWrite(a.pc)
    case LeaveScope => a.pc.LeavingScope?
    case Unwind => a.pc.Unwinding?
    case Cancel => a.pc == CacheWait || (a.pc == Fetching && g.cache.holder == Some(Call(id))) || a.pc == Calling
    case Crash => a.pc == Authorizing || a.pc == Checking || a.pc == Evaluating
  }

  ghost function Perform(c: Config, id: nat, g: Shared, a: Attempt, action: Action): (r: (Shared, Attempt))
    requires Can(id, g, a, action)
  {
    match action
    case CheckRate => RateStep(c, id, g, a)
    case Authorize => (g, AuthorizeStep(c, id, a))
    case EnterCache => EnterCacheStep(id, g, a)
    case FetchReturn(tools) =>
      (g.(cache := ToolCache.Next(g.cache, FetchReturns(Call(id), tools))),
       a.(upstreamTools := Some(tools), pc := Checking))
    case FetchFail => (g.(cache := ToolCache.Next(g.cache, FetchEnds(Call(id)))), a.(pc := Unwinding(Fault)))
    case CheckSchema => (g, SchemaStep(c, id, a))
    case EvaluatePolicy => (g, PolicyStep(c, id, a))
    case AcquireSlot => SlotStep(c, id, g, a)
    case UpstreamReturns(result) =>
      (g.(replies := g.replies[id := result]), RepliedStep(id, a, result))
    case UpstreamTimesOut =>
      (g, Concluded(a, UpstreamTimeout, CategoryTimeout, Return(Finalize(ErrorResult(UpstreamTimedOut(a.tool)), id))))
    case UpstreamFails =>
      (g, Concluded(a, UpstreamError, CategoryError, Return(Finalize(ErrorResult(UpstreamFailed(a.tool)), id))))
    case Write => (g.(log := g.log + [RecordOf(id, a)]), WrittenStep(a))
    case InterruptWrite(cause, landed) =>
      (if landed then g.(log := g.log + [RecordOf(id, a)]) else g, InterruptedStep(a, cause, landed))
    case LeaveScope =>
      (if a.slotHeld then g.(slots := Slot.Released(g.slots, a.principal)) else g,
       a.(slotHeld := false, pc := AfterExit(a.pc.exit)))
    case Unwind => (g, UnwindStep(a))
    case Cancel => CancelStep(id, g, a)
    case Crash => (g, a.(pc := Unwinding(Fault)))
  }

  function AfterExit(exit: Exit): Pc {
    match exit
    case Return(_) => Finished(exit)
    case Raise(cause) => Unwinding(cause)
  }

  function RateStep(c: Config, id: nat, g: Shared, a: Attempt): (Shared, Attempt) {
    var g' := g.(levels := Rate.AfterAcquire(Law(c), g.levels, a.principal, g.now),
                 rateLog := g.rateLog + [Rate.Acquire(id, a.principal, g.now)]);
    if Rate.Admits(Law(c), g.levels, a.principal, g.now) then (g', a.(rate := Passed, pc := Authorizing))
    else (g', Reject(id, a, RateLimited, RateLimitExceeded(a.tool)))
  }

  function AuthorizeStep(c: Config, id: nat, a: Attempt): Attempt {
    var resolved := ResolveToolPolicy(c.policy, a.principal, a.tool);
    var a' := a.(toolPolicy := resolved,
                 matchedRule := if HasRule(c.policy, a.principal, a.tool) then Some(a.tool) else None);
    if resolved.None? then Reject(id, a'.(policy := Failed), PolicyDenied, UnknownTool(a.tool))
    else a'.(pc := CacheWait)
  }

  ghost function EnterCacheStep(id: nat, g: Shared, a: Attempt): (Shared, Attempt)
    requires g.cache.holder == None
  {
    var g' := g.(cache := ToolCache.Next(g.cache, Enter(Call(id))));
    if g.cache.tools.Some? then (g', a.(upstreamTools := g.cache.tools, pc := Checking))
    else (g', a.(pc := Fetching))
  }

  function SchemaStep(c: Config, id: nat, a: Attempt): Attempt
    requires a.upstreamTools.Some?
  {
    var found := FindTool(a.upstreamTools.value, a.tool);
    var a' := a.(upstreamTool := found);
    if found.None? then Reject(id, a'.(policy := Failed), PolicyDenied, UnknownTool(a.tool))
    else if !SchemaAccepts(c, found.value, a.arguments) then
      Reject(id, a'.(schema := Failed, policyLatency := true), SchemaRejected, SchemaInvalid(a.tool))
    else a'.(schema := Passed, pc := Evaluating)
  }

  ghost function PolicyStep(c: Config, id: nat, a: Attempt): Attempt
    requires a.toolPolicy.Some?
  {
    if Accepts(a.toolPolicy.value, a.arguments, c.fullmatch) then
      a.(policy := Passed, policyLatency := true, pc := Acquiring)
    else Reject(id, a.(policy := Failed, policyLatency := true), PolicyDenied, PolicyInvalid(a.tool))
  }

  /** With a slot in hand the call goes out at once, arguments unchanged. */
  function SlotStep(c: Config, id: nat, g: Shared, a: Attempt): (Shared, Attempt) {
    if !Slot.HasRoom(g.slots, c.maxConcurrent, a.principal) then
      (g, Reject(id, a.(concurrency := Failed), ConcurrencyRejected, ConcurrencyExceeded(a.tool)))
    else
      (g.(slots := Slot.Acquired(g.slots, a.principal),
          calls := g.calls + [UpstreamCall(id, a.principal, a.tool, a.arguments)]),
       a.(concurrency := Passed, slotHeld := true, pc := Calling))
  }

  function RepliedStep(id: nat, a: Attempt, result: CallResult): Attempt {
    Concluded(a.(result := Some(result)), UpstreamSuccess, CategorySuccess, Return(Finalize(result, id)))
  }

  /** Out of the body: through the end of the `async with`, if it was entered. */
  function OutOfBody(a: Attempt, exit: Exit): Pc {
    if a.concurrency != NotEvaluated then LeavingScope(exit) else AfterExit(exit)
  }

  function WrittenStep(a: Attempt): Attempt
    requires AtWrite(a.pc)
  {
    match a.pc
    case Emitting(_, _, _, exit) => a.(auditEmitted := true, bodyWrite := Some(Completed), pc := OutOfBody(a, exit))
    case Recording(cause) => a.(auditEmitted := true, outerWrite := Some(Completed), pc := Finished(Raise(cause)))
  }

  /** The flag stays down. An exception out of the body's write reaches the outer
      clause; one out of the outer clause's own write leaves the handler. */
  function InterruptedStep(a: Attempt, cause: Cause, landed: bool): Attempt
    requires AtWrite(a.pc)
  {
    match a.pc
    case Emitting(_, _, _, _) => a.(bodyWrite := Some(Cut(cause, landed)), pc := OutOfBody(a, Raise(cause)))
    case Recording(_) => a.(outerWrite := Some(Cut(cause, landed)), pc := Finished(Raise(cause)))
  }

  function UnwindStep(a: Attempt): Attempt
    requires a.pc.Unwinding?
  {
    a.(pc := if a.auditEmitted then Finished(Raise(a.pc.cause)) else Recording(a.pc.cause))
  }

  ghost function CancelStep(id: nat, g: Shared, a: Attempt): (Shared, Attempt)
    requires Can(id, g, a, Cancel)
  {
    match a.pc
    case Calling => (g, Concluded(a, Cancelled, CategoryCancelled, Raise(Cancellation)))
    case Fetching => (g.(cache := ToolCache.Next(g.cache, FetchEnds(Call(id)))), a.(pc := Unwinding(Cancellation)))
    case _ => (g, a.(pc := Unwinding(Cancellation)))
  }

  /** `moments` is what an attempt and the shared state go through while the
      attempt takes `actions` and nobody else moves. */
  ghost predicate Path(c: Config, id: nat, moments: seq<(Shared, Attempt)>, actions: seq<Action>) {
    && |moments| == |actions| + 1
    && forall i :: 0 <= i < |actions| ==>
         Can(id, moments[i].0, moments[i].1, actions[i])
         && moments[i + 1] == Perform(c, id, moments[i].0, moments[i].1, actions[i])
  }

  // ----- The whole system -----

  datatype System = System(attempts: map<nat, Attempt>, shared: Shared)

  /** `Arrive` brings a fresh correlation id. `CacheUse` is a step of a
      `tools/list` request or of an invalidation; `Look` inspects a bucket. */
  datatype Step =
    | Arrive(id: nat, principal: string, tool: string, arguments: Arguments)
    | Act(id: nat, action: Action)
    | Tick(time: real)
    | CacheUse(step: CacheStep)
    | Look(principal: string)

  ghost predicate ByListing(step: CacheStep) {
    match step
    case Enter(user) => user.Listing?
    case FetchReturns(user, _) => user.Listing?
    case FetchEnds(user) => user.Listing?
    case Invalidate => true
  }

  ghost predicate Possible(s: System, step: Step) {
    match step
    case Arrive(id, _, _, _) => id !in s.attempts
    case Act(id, action) => id in s.attempts && Can(id, s.shared, s.attempts[id], action)
    case Tick(time) => s.shared.now <= time
    case CacheUse(use) => ByListing(use) && ToolCache.Enabled(s.shared.cache, use)
    case Look(_) => true
  }

  ghost function Apply(c: Config, s: System, step: Step): System
    requires Possible(s, step)
  {
    match step
    case Arrive(id, principal, tool, arguments) =>
      s.(attempts := s.attempts[id := NewAttempt(principal, tool, arguments)])
    case Act(id, action) =>
      var (g, a) := Perform(c, id, s.shared, s.attempts[id], action);
      System(s.attempts[id := a], g)
    case Tick(time) => s.(shared := s.shared.(now := time))
    case CacheUse(use) => s.(shared := s.shared.(cache := ToolCache.Next(s.shared.cache, use)))
    case Look(principal) =>
      var g := s.shared;
      s.(shared := g.(levels := g.levels[principal := Rate.LevelFor(Law(c), g.levels, principal, g.now)],
                      rateLog := g.rateLog + [Rate.Inspect(principal, g.now)]))
  }

  ghost function Initial(start: real): System {
    System(map[], Shared(start, map[], [], Slot.NO_SLOTS, EMPTY_CACHE, [], map[], []))
  }

  /** `states` is a run from `start`: `steps[i]` leads from state i to i + 1. */
  ghost predicate Run(c: Config, start: real, states: seq<System>, steps: seq<Step>) {
    && |states| == |steps| + 1
    && states[0] == Initial(start)
    && forall i :: 0 <= i < |steps| ==> Possible(states[i], steps[i]) && states[i + 1] == Apply(c, states[i], steps[i])
  }
}
