/** What one call comes to when nothing interrupts it: the whole pipeline as one
    function from what the call finds to how it ends. The machine, taking the
    steps that the upstream's answers call for and no others, ends the same way. */
module Uninterrupted {
  import opened Wrappers
  import opened Json
  import opened ArgumentPolicy
  import opened AuditLog
  import opened ToolCache
  import opened Pipeline
  import opened PipelineInvariants
  import opened PipelineAudit
  import opened PipelineProgress
  import Rate = RateLimiter
  import Slot = ConcurrencyLimiter

  datatype Request = Request(principal: string, tool: string, arguments: Arguments)

  // ----- The pipeline as a function -----

  /** What the caller gets, what the audit record calls it, and whether the
      upstream was called. */
  datatype Ending = Ending(exit: Exit, outcome: Outcome, forwarded: bool)

  function Refused(id: nat, outcome: Outcome, body: Body): Ending {
    Ending(Return(Finalize(ErrorResult(body), id)), outcome, false)
  }

  function AfterCall(id: nat, tool: string, reply: CallReply): Ending {
    match reply
    case Replies(result) => Ending(Return(Finalize(result, id)), UpstreamSuccess, true)
    case TimesOut => Ending(Return(Finalize(ErrorResult(UpstreamTimedOut(tool)), id)), UpstreamTimeout, true)
    case Raises => Ending(Return(Finalize(ErrorResult(UpstreamFailed(tool)), id)), UpstreamError, true)
    case CallCancelled => Ending(Raise(Cancellation), Cancelled, true)
  }

  function AfterPolicy(c: Config, id: nat, slots: Slot.Slots, r: Request, reply: CallReply): Ending {
    if Slot.ActiveOf(slots, r.principal) < c.maxConcurrent then AfterCall(id, r.tool, reply)
    else Refused(id, ConcurrencyRejected, ConcurrencyExceeded(r.tool))
  }

  ghost function AfterSchema(c: Config, id: nat, slots: Slot.Slots, r: Request, tp: ToolPolicy,
                             reply: CallReply): Ending {
    if Accepts(tp, r.arguments, c.fullmatch) then AfterPolicy(c, id, slots, r, reply)
    else Refused(id, PolicyDenied, PolicyInvalid(r.tool))
  }

  ghost function AfterTools(c: Config, id: nat, slots: Slot.Slots, r: Request, tp: ToolPolicy, tools: seq<Tool>,
                            reply: CallReply): Ending
  {
    var found := FindTool(tools, r.tool);
    if found.None? then Refused(id, PolicyDenied, UnknownTool(r.tool))
    else if found.value.inputSchema.Some? && !c.schemaOk(found.value.inputSchema.value, r.arguments) then
      Refused(id, SchemaRejected, SchemaInvalid(r.tool))
    else AfterSchema(c, id, slots, r, tp, reply)
  }

  ghost function AfterFetch(c: Config, id: nat, slots: Slot.Slots, r: Request, tp: ToolPolicy,
                            answers: Answers): Ending {
    match answers.fetch
    case Lists(tools) => AfterTools(c, id, slots, r, tp, tools, answers.call)
    case FetchRaises => Ending(Raise(Fault), InternalError, false)
    case FetchCancelled => Ending(Raise(Cancellation), Cancelled, false)
  }

  ghost function AfterRule(c: Config, id: nat, g: Shared, r: Request, tp: ToolPolicy, answers: Answers): Ending {
    match g.cache.tools
    case Some(tools) => AfterTools(c, id, g.slots, r, tp, tools, answers.call)
    case None => AfterFetch(c, id, g.slots, r, tp, answers)
  }

  ghost function AfterToken(c: Config, id: nat, g: Shared, r: Request, answers: Answers): Ending {
    if Allows(c.policy, r.principal, r.tool) then
      AfterRule(c, id, g, r, c.policy.principals[r.principal][r.tool], answers)
    else Refused(id, PolicyDenied, UnknownTool(r.tool))
  }

  /** How a call that arrives at state `g` ends, left alone. */
  ghost function EndingOf(c: Config, id: nat, g: Shared, r: Request, answers: Answers): Ending {
    if Rate.Admits(Law(c), g.levels, r.principal, g.now) then AfterToken(c, id, g, r, answers)
    else Refused(id, RateLimited, RateLimitExceeded(r.tool))
  }

  // ----- The machine, left alone -----

  /** Nobody else moves, and every action is the one called for. */
  ghost predicate LeftAlone(c: Config, id: nat, moments: seq<(Shared, Attempt)>, actions: seq<Action>,
                            answers: Answers) {
    && Path(c, id, moments, actions)
    && forall i :: 0 <= i < |actions| ==>
         !moments[i].1.pc.Finished? && actions[i] == Response(moments[i].1.pc, answers)
  }

  ghost predicate Arrives(r: Request, moment: (Shared, Attempt)) {
    moment.1 == NewAttempt(r.principal, r.tool, r.arguments) && Slot.NonNegative(moment.0.slots)
  }

  function RequestOf(a: Attempt): Request { Request(a.principal, a.tool, a.arguments) }

  ghost function LastOutcome(g: Shared): Outcome {
    if g.log == [] then InternalError else g.log[|g.log| - 1].outcome
  }

  /** What an attempt carries with it, as far as its heading depends on it. */
  ghost predicate Equipped(a: Attempt) {
    match a.pc
    case Arrived => a.concurrency == NotEvaluated
    case Authorizing => a.concurrency == NotEvaluated
    case CacheWait => a.concurrency == NotEvaluated && a.toolPolicy.Some?
    case Fetching => a.concurrency == NotEvaluated && a.toolPolicy.Some?
    case Checking => a.concurrency == NotEvaluated && a.toolPolicy.Some? && a.upstreamTools.Some?
    case Evaluating => a.concurrency == NotEvaluated && a.toolPolicy.Some?
    case Acquiring => a.concurrency == NotEvaluated
    case Calling => a.concurrency == Passed
    case LeavingScope(_) => a.auditEmitted
    case _ => true
  }

  lemma LocalIsEquipped(c: Config, id: nat, a: Attempt)
    requires LocalOk(c, id, a) && Undisturbed(a)
    ensures Equipped(a)
    ensures a.pc == Fetching ==> !a.auditEmitted
    ensures a.pc == CacheWait ==> !a.auditEmitted
  {
  }

  /** Where an attempt is heading from where it stands. */
  ghost function Heading(c: Config, id: nat, g: Shared, a: Attempt, answers: Answers): Ending
    requires Equipped(a)
  {
    var r, forwarded := RequestOf(a), a.concurrency == Passed;
    match a.pc
    case Arrived => EndingOf(c, id, g, r, answers)
    case Authorizing => AfterToken(c, id, g, r, answers)
    case CacheWait => AfterRule(c, id, g, r, a.toolPolicy.value, answers)
    case Fetching => AfterFetch(c, id, g.slots, r, a.toolPolicy.value, answers)
    case Checking => AfterTools(c, id, g.slots, r, a.toolPolicy.value, a.upstreamTools.value, answers.call)
    case Evaluating => AfterSchema(c, id, g.slots, r, a.toolPolicy.value, answers.call)
    case Acquiring => AfterPolicy(c, id, g.slots, r, answers.call)
    case Calling => AfterCall(id, a.tool, answers.call)
    case Emitting(outcome, _, _, exit) => Ending(exit, outcome, forwarded)
    case LeavingScope(exit) => Ending(exit, LastOutcome(g), forwarded)
    case Unwinding(cause) =>
      Ending(Raise(cause), if a.auditEmitted then LastOutcome(g) else InterruptionOutcome(cause), forwarded)
    case Recording(cause) => Ending(Raise(cause), InterruptionOutcome(cause), forwarded)
    case Finished(exit) => Ending(exit, LastOutcome(g), forwarded)
  }

  /** No write was cut short. */
  ghost predicate Undisturbed(a: Attempt) {
    a.bodyWrite in {None, Some(Completed)} && a.outerWrite in {None, Some(Completed)}
  }

  lemma StaysLocal(c: Config, id: nat, g: Shared, a: Attempt, action: Action)
    requires LocalOk(c, id, a) && Can(id, g, a, action)
    ensures LocalOk(c, id, Perform(c, id, g, a, action).1)
    ensures EffectOf(c, id, g, a, action, Perform(c, id, g, a, action))
  {
    if AtUpstream(action) { UpstreamActionEffect(c, id, g, a, action); }
    else if AtCache(action) { CacheActionEffect(c, id, g, a, action); }
    else { StageActionEffect(c, id, g, a, action); }
  }

  /** The step that is called for does not change where the attempt is heading. */
  ghost predicate Heads(c: Config, id: nat, g: Shared, a: Attempt, answers: Answers)
    requires Equipped(a) && !a.pc.Finished? && Can(id, g, a, Response(a.pc, answers))
  {
    var (g', a') := Perform(c, id, g, a, Response(a.pc, answers));
    Equipped(a') && Heading(c, id, g', a', answers) == Heading(c, id, g, a, answers)
  }

  lemma RateKeepsHeading(c: Config, id: nat, g: Shared, a: Attempt, answers: Answers)
    requires Equipped(a) && a.pc == Arrived
    ensures Heads(c, id, g, a, answers)
  {
    if Rate.Admits(Law(c), g.levels, a.principal, g.now) {
    } else {
    }
  }

  lemma AuthorizeKeepsHeading(c: Config, id: nat, g: Shared, a: Attempt, answers: Answers)
    requires Equipped(a) && a.pc == Authorizing
    ensures Heads(c, id, g, a, answers)
  {
    if ResolveToolPolicy(c.policy, a.principal, a.tool).Some? {
    } else {
    }
  }

  lemma EnterKeepsHeading(c: Config, id: nat, g: Shared, a: Attempt, answers: Answers)
    requires Equipped(a) && a.pc == CacheWait && !a.auditEmitted && g.cache.holder == None
    ensures Heads(c, id, g, a, answers)
  {
    if g.cache.tools.Some? {
    } else {
    }
  }

  lemma FetchKeepsHeading(c: Config, id: nat, g: Shared, a: Attempt, answers: Answers)
    requires Equipped(a) && a.pc == Fetching && !a.auditEmitted && g.cache.holder == Some(Call(id))
    ensures Heads(c, id, g, a, answers)
  {
    match answers.fetch
    case Lists(_) =>
    case FetchRaises =>
    case FetchCancelled =>
  }

  lemma MissingToolKeepsHeading(c: Config, id: nat, g: Shared, a: Attempt, answers: Answers)
    requires Equipped(a) && a.pc == Checking && FindTool(a.upstreamTools.value, a.tool).None?
    ensures Heads(c, id, g, a, answers)
  {
  }

  lemma FoundToolKeepsHeading(c: Config, id: nat, g: Shared, a: Attempt, answers: Answers)
    requires Equipped(a) && a.pc == Checking && FindTool(a.upstreamTools.value, a.tool).Some?
    ensures Heads(c, id, g, a, answers)
  {
    if SchemaAccepts(c, FindTool(a.upstreamTools.value, a.tool).value, a.arguments) {
    } else {
    }
  }

  lemma SchemaKeepsHeading(c: Config, id: nat, g: Shared, a: Attempt, answers: Answers)
    requires Equipped(a) && a.pc == Checking
    ensures Heads(c, id, g, a, answers)
  {
    if FindTool(a.upstreamTools.value, a.tool).None? { MissingToolKeepsHeading(c, id, g, a, answers); }
    else { FoundToolKeepsHeading(c, id, g, a, answers); }
  }

  lemma PolicyKeepsHeading(c: Config, id: nat, g: Shared, a: Attempt, answers: Answers)
    requires Equipped(a) && a.pc == Evaluating
    ensures Heads(c, id, g, a, answers)
  {
    if Accepts(a.toolPolicy.value, a.arguments, c.fullmatch) {
    } else {
    }
  }

  lemma FreeSlotKeepsHeading(c: Config, id: nat, g: Shared, a: Attempt, answers: Answers)
    requires Equipped(a) && a.pc == Acquiring && Slot.HasRoom(g.slots, c.maxConcurrent, a.principal)
    ensures Heads(c, id, g, a, answers)
  {
  }

  lemma NoSlotKeepsHeading(c: Config, id: nat, g: Shared, a: Attempt, answers: Answers)
    requires Equipped(a) && a.pc == Acquiring && !Slot.HasRoom(g.slots, c.maxConcurrent, a.principal)
    ensures Heads(c, id, g, a, answers)
  {
  }

  lemma SlotKeepsHeading(c: Config, id: nat, g: Shared, a: Attempt, answers: Answers)
    requires Equipped(a) && a.pc == Acquiring
    ensures Heads(c, id, g, a, answers)
  {
    if Slot.HasRoom(g.slots, c.maxConcurrent, a.principal) { FreeSlotKeepsHeading(c, id, g, a, answers); }
    else { NoSlotKeepsHeading(c, id, g, a, answers); }
  }

  lemma ReplyKeepsHeading(c: Config, id: nat, g: Shared, a: Attempt, answers: Answers)
    requires Equipped(a) && a.pc == Calling && answers.call.Replies?
    ensures Heads(c, id, g, a, answers)
  {
  }

  lemma NoReplyKeepsHeading(c: Config, id: nat, g: Shared, a: Attempt, answers: Answers)
    requires Equipped(a) && a.pc == Calling && !answers.call.Replies?
    ensures Heads(c, id, g, a, answers)
  {
    match answers.call
    case TimesOut =>
    case Raises =>
    case CallCancelled =>
  }

  lemma CallKeepsHeading(c: Config, id: nat, g: Shared, a: Attempt, answers: Answers)
    requires Equipped(a) && a.pc == Calling
    ensures Heads(c, id, g, a, answers)
  {
    if answers.call.Replies? { ReplyKeepsHeading(c, id, g, a, answers); }
    else { NoReplyKeepsHeading(c, id, g, a, answers); }
  }

  lemma BodyWriteKeepsHeading(c: Config, id: nat, g: Shared, a: Attempt, answers: Answers)
    requires Equipped(a) && a.pc.Emitting?
    ensures Heads(c, id, g, a, answers)
  {
    assert RecordOf(id, a).outcome == a.pc.outcome;
  }

  lemma OuterWriteKeepsHeading(c: Config, id: nat, g: Shared, a: Attempt, answers: Answers)
    requires Equipped(a) && a.pc.Recording?
    ensures Heads(c, id, g, a, answers)
  {
    assert RecordOf(id, a).outcome == InterruptionOutcome(a.pc.cause);
  }

  lemma LeavingKeepsHeading(c: Config, id: nat, g: Shared, a: Attempt, answers: Answers)
    requires Equipped(a) && (a.pc.LeavingScope? || a.pc.Unwinding?)
    ensures Heads(c, id, g, a, answers)
  {
  }

  lemma ResponseKeepsHeading(c: Config, id: nat, g: Shared, a: Attempt, answers: Answers)
    requires Equipped(a) && !a.pc.Finished? && Can(id, g, a, Response(a.pc, answers))
    requires a.pc in {CacheWait, Fetching} ==> !a.auditEmitted
    ensures Heads(c, id, g, a, answers)
  {
    match a.pc
    case Arrived => RateKeepsHeading(c, id, g, a, answers);
    case Authorizing => AuthorizeKeepsHeading(c, id, g, a, answers);
    case CacheWait => EnterKeepsHeading(c, id, g, a, answers);
    case Fetching => FetchKeepsHeading(c, id, g, a, answers);
    case Checking => SchemaKeepsHeading(c, id, g, a, answers);
    case Evaluating => PolicyKeepsHeading(c, id, g, a, answers);
    case Acquiring => SlotKeepsHeading(c, id, g, a, answers);
    case Calling => CallKeepsHeading(c, id, g, a, answers);
    case Emitting(_, _, _, _) => BodyWriteKeepsHeading(c, id, g, a, answers);
    case Recording(_) => OuterWriteKeepsHeading(c, id, g, a, answers);
    case LeavingScope(_) => LeavingKeepsHeading(c, id, g, a, answers);
    case Unwinding(_) => LeavingKeepsHeading(c, id, g, a, answers);
  }

  // ----- What else a call leaves behind -----

  ghost predicate IsAbout(record: AuditRecord, id: nat, r: Request) {
    && record.correlationId == id && record.principal == r.principal
    && record.toolName == r.tool && record.arguments == Object(r.arguments)
  }

  /** One record once the flag is up; the call sent once it has passed every stage;
      every active count as before but for a slot still held. */
  ghost predicate Traces(id: nat, g0: Shared, r: Request, g: Shared, a: Attempt) {
    && RequestOf(a) == r && Undisturbed(a)
    && LogTraces(id, g0, r, g, a)
    && g.calls == g0.calls + (if a.concurrency
            == Passed then [UpstreamCall(id, r.principal, r.tool, r.arguments)] else [])
    && SlotTraces(g0, r, g, a)
  }

  ghost predicate LogTraces(id: nat, g0: Shared, r: Request, g: Shared, a: Attempt) {
    if a.auditEmitted then |g.log| == |g0.log| + 1 && g0.log <= g.log && IsAbout(g.log[|g0.log|], id, r)
    else g.log == g0.log
  }

  ghost predicate SlotTraces(g0: Shared, r: Request, g: Shared, a: Attempt) {
    forall p :: Slot.ActiveOf(g.slots, p)
                == Slot.ActiveOf(g0.slots, p) + if a.slotHeld && p == r.principal then 1 else 0
  }

  lemma WriteLeavesTraces(c: Config, id: nat, g0: Shared, r: Request, g: Shared, a: Attempt)
    requires LocalOk(c, id, a) && AtWrite(a.pc) && Traces(id, g0, r, g, a)
    ensures Traces(id, g0, r, g.(log := g.log + [RecordOf(id, a)]), WrittenStep(a))
  {
  }

  lemma OtherMovesLeaveTraces(c: Config, id: nat, g0: Shared, r: Request, g: Shared, a: Attempt, g': Shared,
                              a': Attempt)
    requires Traces(id, g0, r, g, a) && SameWrites(a, a') && g'.log == g.log
    requires CallsEffect(id, g, a, g', a') && SlotsEffect(c, g, a, g', a')
    requires Slot.NonNegative(g0.slots)
    ensures Traces(id, g0, r, g', a')
  {
  }

  lemma ResponseLeavesTraces(c: Config, id: nat, g0: Shared, r: Request, g: Shared, a: Attempt, answers: Answers)
    requires LocalOk(c, id, a) && !a.pc.Finished? && Can(id, g, a, Response(a.pc, answers)) && Traces(id, g0, r, g, a)
    requires Slot.NonNegative(g0.slots)
    ensures var (g', a') := Perform(c, id, g, a, Response(a.pc, answers)); Traces(id, g0, r, g', a')
  {
    var action := Response(a.pc, answers);
    var (g', a') := Perform(c, id, g, a, action);
    if AtWrite(a.pc) {
      WriteLeavesTraces(c, id, g0, r, g, a);
    } else {
      StaysLocal(c, id, g, a, action);
      OtherActionsEndNoWrite(c, id, g, a, action);
      OtherMovesLeaveTraces(c, id, g0, r, g, a, g', a');
    }
  }

  /** The attempt is heading where its arrival pointed it, and has left its traces. */
  ghost predicate OnCourse(c: Config, id: nat, g0: Shared, r: Request, g: Shared, a: Attempt, answers: Answers) {
    && LocalOk(c, id, a) && Equipped(a) && Heading(c, id, g, a, answers) == EndingOf(c, id, g0, r, answers)
    && Traces(id, g0, r, g, a)
  }

  lemma StillHeading(c: Config, id: nat, g0: Shared, r: Request, g: Shared, a: Attempt, answers: Answers)
    requires OnCourse(c, id, g0, r, g, a, answers) && Slot.NonNegative(g0.slots)
    requires !a.pc.Finished? && Can(id, g, a, Response(a.pc, answers))
    ensures var (g', a') := Perform(c, id, g, a, Response(a.pc, answers)); OnCourse(c, id, g0, r, g', a', answers)
  {
    LocalIsEquipped(c, id, a);
    StaysLocal(c, id, g, a, Response(a.pc, answers));
    ResponseKeepsHeading(c, id, g, a, answers);
    ResponseLeavesTraces(c, id, g0, r, g, a, answers);
  }

  /** Left alone, an attempt keeps heading where its arrival pointed it. */
  lemma {:induction false} LeftAloneHeadsForItsEnding(c: Config, id: nat, r: Request, moments: seq<(Shared, Attempt)>,
                                                      actions: seq<Action>, answers: Answers, n: nat)
    requires LeftAlone(c, id, moments, actions, answers) && Arrives(r, moments[0]) && n < |moments|
    ensures OnCourse(c, id, moments[0].0, r, moments[n].0, moments[n].1, answers)
  {
    if n > 0 {
      LeftAloneHeadsForItsEnding(c, id, r, moments, actions, answers, n - 1);
      var (g, a) := moments[n - 1];
      assert actions[n - 1] == Response(a.pc, answers);
      assert moments[n - 1 + 1] == Perform(c, id, g, a, Response(a.pc, answers));
      StillHeading(c, id, moments[0].0, r, g, a, answers);
    }
  }

  /** The machine refines the function: a call left alone, whatever it finds and
      whatever the upstream answers, ends as `EndingOf` says. It adds one record,
      with that outcome; it was forwarded, once and unchanged, exactly if that says
      so; and it leaves no slot taken. */
  lemma UninterruptedCall(c: Config, id: nat, r: Request, moments: seq<(Shared, Attempt)>, actions: seq<Action>,
                          answers: Answers)
    requires LeftAlone(c, id, moments, actions, answers) && Arrives(r, moments[0])
    requires moments[|actions|].1.pc.Finished?
    ensures var g0, (g, a) := moments[0].0, moments[|actions|];
            var ending := EndingOf(c, id, g0, r, answers);
            && a.pc.exit == ending.exit
            && |g.log| == |g0.log| + 1 && g0.log <= g.log && IsAbout(g.log[|g0.log|], id, r)
            && g.log[|g0.log|].outcome == ending.outcome
            && g.calls == g0.calls
                          + (if ending.forwarded then [UpstreamCall(id, r.principal, r.tool, r.arguments)] else [])
            && forall p :: Slot.ActiveOf(g.slots, p) == Slot.ActiveOf(g0.slots, p)
  {
    LeftAloneHeadsForItsEnding(c, id, r, moments, actions, answers, |actions|);
    FinishedUndisturbed(c, id, moments[|actions|].1);
  }

  lemma FinishedUndisturbed(c: Config, id: nat, a: Attempt)
    requires LocalOk(c, id, a) && a.pc.Finished? && Undisturbed(a)
    ensures a.auditEmitted && !a.slotHeld
  {
  }
}
