/** What every step of the pipeline machine keeps. */
module PipelineInvariants {
  import opened Wrappers
  import opened Json
  import opened ArgumentPolicy
  import opened AuditLog
  import opened ToolCache
  import opened Pipeline
  import Rate = RateLimiter
  import Slot = ConcurrencyLimiter

  // ----- One attempt by itself -----

  ghost predicate Authorized(c: Config, a: Attempt) {
    && a.rate == Passed && a.matchedRule == Some(a.tool)
    && a.toolPolicy.Some? && a.toolPolicy == ResolveToolPolicy(c.policy, a.principal, a.tool)
  }

  ghost predicate ToolFound(a: Attempt) {
    && a.upstreamTools.Some? && a.upstreamTool.Some?
    && a.upstreamTool == FindTool(a.upstreamTools.value, a.tool)
  }

  /** What the local variables of an attempt mean, wherever it stands. */
  ghost predicate StageFacts(c: Config, a: Attempt) {
    && a.rate != NotEvaluated
    && (a.rate == Failed ==> a.schema == a.policy == a.concurrency == NotEvaluated && a.matchedRule == None)
    && (a.matchedRule.Some? ==> a.matchedRule.value == a.tool && HasRule(c.policy, a.principal, a.tool))
    && (a.toolPolicy.Some? ==> Authorized(c, a))
    && (a.toolPolicy.None? ==>
          (a.matchedRule.Some? <==> a.policy == Failed && HasRule(c.policy, a.principal, a.tool)))
    && (a.policy == Failed && a.toolPolicy.None? ==> ResolveToolPolicy(c.policy, a.principal, a.tool).None?)
    && (a.policy == Failed && a.toolPolicy.Some? && a.schema == NotEvaluated ==>
          a.upstreamTools.Some? && FindTool(a.upstreamTools.value, a.tool).None?)
    && (a.schema != NotEvaluated ==>
          a.toolPolicy.Some? && ToolFound(a)
          && (a.schema == Passed <==> SchemaAccepts(c, a.upstreamTool.value, a.arguments)))
    && (a.policy == Passed ==> a.schema == Passed && Accepts(a.toolPolicy.value, a.arguments, c.fullmatch))
    && (a.policy == Failed ==>
          a.schema != Failed && (a.schema == Passed ==> !Accepts(a.toolPolicy.value, a.arguments, c.fullmatch)))
    && (a.concurrency != NotEvaluated ==> a.policy == Passed)
    && (a.policyLatency <==> a.schema == Failed || (a.schema == Passed && a.policy != NotEvaluated))
    && (a.upstreamLatency ==> a.concurrency == Passed)
    && (a.result.Some? ==> a.upstreamLatency)
    && (a.auditEmitted <==> a.bodyWrite == Some(Completed) || a.outerWrite == Some(Completed))
  }

  /** A record's fields fit together: each outcome is read off the one stage that
      failed, or off the category of the upstream call. */
  ghost predicate StageConsistent(r: AuditRecord) {
    && (r.concurrencyResult != NotEvaluated ==> r.policyResult == Passed)
    && (r.policyResult == Passed ==> r.schemaResult == Passed)
    && (r.schemaResult != NotEvaluated ==> r.rateLimitResult == Passed && r.matchedRule == Some(r.toolName))
    && (r.upstreamAttempted <==> r.concurrencyResult == Passed)
    && (r.upstreamAttempted <==> r.upstreamLatency)
    && (r.upstreamAttempted <==> r.upstreamCategory.Some?)
    && (r.policyLatency <==> r.schemaResult == Failed || (r.schemaResult == Passed && r.policyResult != NotEvaluated))
    && (r.outcome == RateLimited <==> r.rateLimitResult == Failed)
    && (r.outcome == RateLimited ==> r.schemaResult == r.policyResult == NotEvaluated && r.matchedRule == None)
    && (r.outcome == SchemaRejected <==> r.schemaResult == Failed)
    && (r.outcome == PolicyDenied <==> r.policyResult == Failed)
    && (r.outcome == ConcurrencyRejected <==> r.concurrencyResult == Failed)
    && (r.outcome == UpstreamSuccess <==> r.upstreamCategory == Some(CategorySuccess))
    && (r.outcome == UpstreamTimeout <==> r.upstreamCategory == Some(CategoryTimeout))
    && (r.outcome == UpstreamError <==> r.upstreamCategory == Some(CategoryError))
    && (r.outcome == Cancelled ==> r.upstreamCategory == Some(CategoryCancelled)
                                   || r.schemaResult == r.policyResult == NotEvaluated)
    && (r.upstreamCategory == Some(CategoryCancelled) ==> r.outcome == Cancelled)
    && (r.outcome == InternalError ==> r.policyResult == NotEvaluated)
    && r.rateLimitResult != NotEvaluated
  }

  /** Written by the outer exception clause: interrupted, and no upstream call on record. */
  predicate ByOuterClause(r: AuditRecord) { r.outcome in {Cancelled, InternalError} && !r.upstreamAttempted }

  /** The caller's result tells the same story as the record, and carries its id. */
  ghost predicate ExitFits(r: AuditRecord, result: Option<CallResult>, exit: Exit) {
    && (exit.Return? ==> Stamped(exit.result, r.correlationId) && (result.Some? <==> r.outcome == UpstreamSuccess))
    && match r.outcome
       case RateLimited => exit == Return(Finalize(ErrorResult(RateLimitExceeded(r.toolName)), r.correlationId))
       case PolicyDenied =>
         exit == Return(Finalize(ErrorResult(if r.schemaResult == Passed then PolicyInvalid(r.toolName)
                                             else UnknownTool(r.toolName)), r.correlationId))
       case SchemaRejected => exit == Return(Finalize(ErrorResult(SchemaInvalid(r.toolName)), r.correlationId))
       case ConcurrencyRejected =>
         exit == Return(Finalize(ErrorResult(ConcurrencyExceeded(r.toolName)), r.correlationId))
       case UpstreamSuccess => result.Some? && exit == Return(Finalize(result.value, r.correlationId))
       case UpstreamError => exit == Return(Finalize(ErrorResult(UpstreamFailed(r.toolName)), r.correlationId))
       case UpstreamTimeout => exit == Return(Finalize(ErrorResult(UpstreamTimedOut(r.toolName)), r.correlationId))
       case Cancelled => exit == Raise(Cancellation)
       case InternalError => exit == Raise(Fault)
  }

  /** Interrupted before the concurrency stage, with nothing recorded yet. */
  ghost predicate Interrupted(a: Attempt, cause: Cause) {
    && Unwritten(a) && !a.upstreamLatency
    && a.rate == Passed && a.schema != Failed && a.policy == NotEvaluated && a.concurrency == NotEvaluated
    && (cause == Cancellation ==> a.schema == NotEvaluated)
  }

  ghost predicate Unwritten(a: Attempt) { a.bodyWrite == None && a.outerWrite == None }

  /** Why the outer clause has a record to write: nothing has been written, or the
      body's write was cut short by the exception now being handled. */
  ghost predicate RecordDue(id: nat, a: Attempt, cause: Cause) {
    && a.outerWrite == None
    && match a.bodyWrite
       case None => Interrupted(a, cause)
       case Some(Completed) => false
       case Some(Cut(why, _)) => why == cause && !StageConsistent(OuterRecord(id, a, cause))
  }

  /** What the outer clause writes. */
  ghost function OuterRecord(id: nat, a: Attempt, cause: Cause): AuditRecord { RecordOf(id,
                             a.(pc := Recording(cause))) }

  /** How a finished attempt's writes went, and the exit that follows. */
  ghost predicate WritesFit(a: Attempt, exit: Exit) {
    if a.bodyWrite == Some(Completed) then a.outerWrite == None
    else exit.Raise? && a.outerWrite.Some? && (a.outerWrite.value.Cut? ==> a.outerWrite.value.cause == exit.cause)
  }

  /** How far an attempt has come at each point. */
  ghost predicate PcFits(c: Config, id: nat, a: Attempt) {
    match a.pc
    case Arrived => a == NewAttempt(a.principal, a.tool, a.arguments)
    case Authorizing => a == NewAttempt(a.principal, a.tool, a.arguments).(rate := Passed, pc := Authorizing)
    case CacheWait => Waiting(a, NotEvaluated, NotEvaluated) && a.upstreamTools.None?
    case Fetching => Waiting(a, NotEvaluated, NotEvaluated) && a.upstreamTools.None?
    case Checking => Waiting(a, NotEvaluated, NotEvaluated) && a.upstreamTools.Some?
    case Evaluating => Waiting(a, Passed, NotEvaluated)
    case Acquiring => Waiting(a, Passed, Passed)
    case Calling => a.concurrency == Passed && a.slotHeld && Unwritten(a) && !a.upstreamLatency
    case Emitting(_, _, _, exit) =>
      && Unwritten(a) && (a.slotHeld <==> a.concurrency == Passed)
      && StageConsistent(RecordOf(id, a)) && !ByOuterClause(RecordOf(id, a))
         && ExitFits(RecordOf(id, a), a.result, exit)
    case LeavingScope(exit) =>
      && a.concurrency != NotEvaluated && (a.slotHeld <==> a.concurrency == Passed)
      && (a.bodyWrite == Some(Completed) || (exit.Raise? && a.bodyWrite.Some? && RecordDue(id, a, exit.cause)))
      && a.outerWrite == None
    case Unwinding(cause) => !a.slotHeld && (if a.auditEmitted then a.outerWrite == None else RecordDue(id, a, cause))
    case Recording(cause) => !a.slotHeld && RecordDue(id, a, cause)
    case Finished(exit) => !a.slotHeld && WritesFit(a, exit)
  }

  ghost predicate Waiting(a: Attempt, schema: StageResult, policy: StageResult) {
    && a.toolPolicy.Some? && a.schema == schema && a.policy == policy && a.concurrency == NotEvaluated
    && !a.slotHeld && Unwritten(a) && !a.upstreamLatency
  }

  ghost predicate LocalOk(c: Config, id: nat, a: Attempt) { StageFacts(c, a) && PcFits(c, id, a) }

  ghost predicate SameRequest(a: Attempt, a': Attempt) {
    a'.principal == a.principal && a'.tool == a.tool && a'.arguments == a.arguments
  }

  /** A step that only moves the attempt along. */
  ghost predicate Quiet(a: Attempt, a': Attempt) {
    && SameRequest(a, a') && Unwritten(a) && Unwritten(a')
    && a'.rate == a.rate && a'.slotHeld == a.slotHeld && a'.upstreamTools == a.upstreamTools
    && (a'.concurrency == Passed <==> a.concurrency == Passed) && a'.result == a.result
    && a.pc != Fetching && a'.pc != Fetching
  }

  lemma RateStepLocal(c: Config, id: nat, g: Shared, a: Attempt)
    requires LocalOk(c, id, a) && a.pc == Arrived
    ensures LocalOk(c, id, RateStep(c, id, g, a).1)
  {
  }

  lemma AuthorizeStepLocal(c: Config, id: nat, a: Attempt)
    requires LocalOk(c, id, a) && a.pc == Authorizing
    ensures LocalOk(c, id, AuthorizeStep(c, id, a))
    ensures Quiet(a, AuthorizeStep(c, id, a))
  {
  }

  lemma SchemaStepFacts(c: Config, id: nat, a: Attempt)
    requires LocalOk(c, id, a) && a.pc == Checking && a.upstreamTools.Some?
    ensures StageFacts(c, SchemaStep(c, id, a))
  {
  }

  lemma MissingToolFits(c: Config, id: nat, a: Attempt)
    requires LocalOk(c, id, a) && a.pc == Checking && a.upstreamTools.Some?
    requires FindTool(a.upstreamTools.value, a.tool).None?
    ensures PcFits(c, id, SchemaStep(c, id, a))
  {
  }

  lemma FoundToolFits(c: Config, id: nat, a: Attempt)
    requires LocalOk(c, id, a) && a.pc == Checking && a.upstreamTools.Some?
    requires FindTool(a.upstreamTools.value, a.tool).Some?
    ensures PcFits(c, id, SchemaStep(c, id, a))
  {
  }

  lemma SchemaStepLocal(c: Config, id: nat, a: Attempt)
    requires LocalOk(c, id, a) && a.pc == Checking && a.upstreamTools.Some?
    ensures LocalOk(c, id, SchemaStep(c, id, a))
    ensures Quiet(a, SchemaStep(c, id, a))
  {
    SchemaStepFacts(c, id, a);
    if FindTool(a.upstreamTools.value, a.tool).None? { MissingToolFits(c, id, a); } else { FoundToolFits(c, id, a); }
  }

  lemma PolicyStepFacts(c: Config, id: nat, a: Attempt)
    requires LocalOk(c, id, a) && a.pc == Evaluating && a.toolPolicy.Some?
    ensures StageFacts(c, PolicyStep(c, id, a))
  {
  }

  lemma PolicyStepLocal(c: Config, id: nat, a: Attempt)
    requires LocalOk(c, id, a) && a.pc == Evaluating && a.toolPolicy.Some?
    ensures LocalOk(c, id, PolicyStep(c, id, a))
    ensures Quiet(a, PolicyStep(c, id, a))
  {
    PolicyStepFacts(c, id, a);
  }

  lemma SlotStepFacts(c: Config, id: nat, g: Shared, a: Attempt)
    requires LocalOk(c, id, a) && a.pc == Acquiring
    ensures StageFacts(c, SlotStep(c, id, g, a).1)
  {
  }

  lemma SlotStepLocal(c: Config, id: nat, g: Shared, a: Attempt)
    requires LocalOk(c, id, a) && a.pc == Acquiring
    ensures LocalOk(c, id, SlotStep(c, id, g, a).1)
  {
    SlotStepFacts(c, id, g, a);
  }

  lemma ConcludedLocal(c: Config, id: nat, a: Attempt, outcome: Outcome, category: Category, exit: Exit)
    requires LocalOk(c, id, a) && a.pc == Calling
    requires ExitFits(RecordOf(id, Concluded(a, outcome, category, exit)), a.result, exit)
    requires (outcome, category) in {(UpstreamTimeout, CategoryTimeout), (UpstreamError, CategoryError),
                                     (Cancelled, CategoryCancelled)}
    ensures LocalOk(c, id, Concluded(a, outcome, category, exit))
    ensures Quiet(a, Concluded(a, outcome, category, exit))
  {
  }

  lemma RepliedLocal(c: Config, id: nat, a: Attempt, result: CallResult)
    requires LocalOk(c, id, a) && a.pc == Calling
    ensures LocalOk(c, id, RepliedStep(id, a, result))
  {
  }

  lemma BodyWrittenLocal(c: Config, id: nat, a: Attempt)
    requires LocalOk(c, id, a) && a.pc.Emitting?
    ensures LocalOk(c, id, WrittenStep(a))
  {
  }

  lemma WrittenStepLocal(c: Config, id: nat, a: Attempt)
    requires LocalOk(c, id, a) && AtWrite(a.pc)
    ensures LocalOk(c, id, WrittenStep(a))
  {
    if a.pc.Emitting? { BodyWrittenLocal(c, id, a); }
  }

  /** A record of the body tells of a stage that the outer clause's record, on the
      same local variables, would contradict. */
  lemma OuterContradictsBody(id: nat, a: Attempt, cause: Cause)
    requires a.pc.Emitting? && StageConsistent(RecordOf(id, a)) && !ByOuterClause(RecordOf(id, a))
    ensures !StageConsistent(OuterRecord(id, a, cause))
  {
  }

  lemma InterruptedBodyLocal(c: Config, id: nat, a: Attempt, cause: Cause, landed: bool)
    requires LocalOk(c, id, a) && a.pc.Emitting?
    ensures LocalOk(c, id, InterruptedStep(a, cause, landed))
  {
    var a' := InterruptedStep(a, cause, landed);
    OuterContradictsBody(id, a, cause);
    assert OuterRecord(id, a', cause) == OuterRecord(id, a, cause);
    assert RecordDue(id, a', cause);
  }

  lemma InterruptedStepLocal(c: Config, id: nat, a: Attempt, cause: Cause, landed: bool)
    requires LocalOk(c, id, a) && AtWrite(a.pc)
    ensures LocalOk(c, id, InterruptedStep(a, cause, landed))
  {
    if a.pc.Emitting? { InterruptedBodyLocal(c, id, a, cause, landed); }
  }

  lemma UnwindStepLocal(c: Config, id: nat, a: Attempt)
    requires LocalOk(c, id, a) && a.pc.Unwinding?
    ensures LocalOk(c, id, UnwindStep(a))
  {
  }

  lemma CacheMoveLocal(c: Config, id: nat, a: Attempt, tools: seq<Tool>)
    requires LocalOk(c, id, a) && (a.pc == CacheWait || a.pc == Fetching)
    ensures LocalOk(c, id, a.(pc := Fetching))
    ensures LocalOk(c, id, a.(upstreamTools := Some(tools), pc := Checking))
    ensures LocalOk(c, id, a.(pc := Unwinding(Fault)))
    ensures LocalOk(c, id, a.(pc := Unwinding(Cancellation)))
  {
  }

  lemma CrashLocal(c: Config, id: nat, a: Attempt)
    requires LocalOk(c, id, a) && a.pc in {Authorizing, Checking, Evaluating}
    ensures LocalOk(c, id, a.(pc := Unwinding(Fault)))
    ensures Quiet(a, a.(pc := Unwinding(Fault)))
  {
  }

  lemma LeaveScopeLocal(c: Config, id: nat, a: Attempt)
    requires LocalOk(c, id, a) && a.pc.LeavingScope?
    ensures LocalOk(c, id, a.(slotHeld := false, pc := AfterExit(a.pc.exit)))
  {
  }

  // ----- The audit log and the attempts -----

  ghost function ExitOf(pc: Pc): Option<Exit> {
    match pc
    case LeavingScope(exit) => Some(exit)
    case Unwinding(cause) => Some(Raise(cause))
    case Finished(exit) => Some(exit)
    case _ => None
  }

  ghost predicate SameStages(r: AuditRecord, a: Attempt) {
    && r.principal == a.principal && r.toolName == a.tool && r.arguments == Object(a.arguments)
    && r.matchedRule == a.matchedRule && r.rateLimitResult == a.rate && r.schemaResult == a.schema
    && r.policyResult == a.policy && r.concurrencyResult == a.concurrency
    && r.policyLatency == a.policyLatency && r.upstreamLatency == a.upstreamLatency
  }

  ghost function EndOf(a: Attempt, outer: bool): Option<WriteEnd> { if outer then a.outerWrite else a.bodyWrite }

  /** `r` was written for `a`, by its body or by its outer clause. The body's
      record is consistent; the outer clause's is, unless the body wrote first. A
      write that returned also agrees with the exit. */
  ghost predicate Logged(r: AuditRecord, a: Attempt) {
    && SameStages(r, a)
    && Landed(EndOf(a, ByOuterClause(r)))
    && (StageConsistent(r) <==> !ByOuterClause(r) || a.bodyWrite == None)
    && (EndOf(a, ByOuterClause(r)) == Some(Completed) ==>
          ExitOf(a.pc).Some? && ExitFits(r, a.result, ExitOf(a.pc).value))
  }

  /** How many records an attempt has from its body, or from its outer clause. */
  ghost function RecordsBy(log: seq<AuditRecord>, id: nat, outer: bool): nat {
    if log == [] then 0
    else RecordsBy(log[..|log| - 1], id, outer) + if Marks(log[|log| - 1], id, outer) then 1 else 0
  }

  predicate Marks(r: AuditRecord, id: nat, outer: bool) { r.correlationId == id && ByOuterClause(r) == outer }

  /** The attempts whose body, or whose outer clause, put a record in the file. */
  ghost function Writers(attempts: map<nat, Attempt>, outer: bool): set<nat> {
    set id | id in attempts && Landed(EndOf(attempts[id], outer))
  }

  ghost predicate LogLinked(s: System) {
    var log := s.shared.log;
    && (forall i :: 0 <= i < |log| ==>
          log[i].correlationId in s.attempts && Logged(log[i], s.attempts[log[i].correlationId]))
    && (forall id, outer :: id in s.attempts ==>
          RecordsBy(log, id, outer) == if Landed(EndOf(s.attempts[id], outer)) then 1 else 0)
    && |log| == |Writers(s.attempts, false)| + |Writers(s.attempts, true)|
  }

  /** What a step does to the log: nothing that unsays a record, and at most one
      record, of a write that had not landed before. */
  ghost predicate LogEffect(id: nat, g: Shared, a: Attempt, g': Shared, a': Attempt) {
    && (forall r :: Logged(r, a) ==> Logged(r, a'))
    && (|| (g'.log == g.log && forall outer :: Landed(EndOf(a', outer)) == Landed(EndOf(a, outer)))
        || exists r: AuditRecord :: OneRecord(id, g, a, g', a', r))
  }

  ghost predicate OneRecord(id: nat, g: Shared, a: Attempt, g': Shared, a': Attempt, r: AuditRecord) {
    && g'.log == g.log + [r] && r.correlationId == id && Logged(r, a')
    && !Landed(EndOf(a, ByOuterClause(r)))
    && Landed(EndOf(a', !ByOuterClause(r))) == Landed(EndOf(a, !ByOuterClause(r)))
  }

  /** Nothing is yet written for an attempt that has ended no write. */
  lemma UnwrittenHasNoRecords(a: Attempt)
    requires Unwritten(a)
    ensures forall r :: !Logged(r, a)
  {
  }

  /** The end of a write leaves the earlier record of an attempt as it was. */
  lemma EarlierRecordStays(c: Config, id: nat, a: Attempt, a': Attempt, r: AuditRecord)
    requires LocalOk(c, id, a) && AtWrite(a.pc) && Logged(r, a)
    requires a'.bodyWrite == a.bodyWrite || a.pc.Emitting?
    requires a'
            == a.(pc := a'.pc, auditEmitted := a'.auditEmitted, bodyWrite := a'.bodyWrite, outerWrite := a'.outerWrite)
    ensures Logged(r, a')
  {
    if a.pc.Emitting? {
      UnwrittenHasNoRecords(a);
      assert false;
    }
  }

  lemma BodyWriteIsLogged(c: Config, id: nat, a: Attempt, a': Attempt)
    requires LocalOk(c, id, a) && a.pc.Emitting?
    requires a' == WrittenStep(a) || exists cause :: a' == InterruptedStep(a, cause, true)
    ensures Logged(RecordOf(id, a), a') && !ByOuterClause(RecordOf(id, a))
  {
  }

  lemma OuterWriteIsLogged(c: Config, id: nat, a: Attempt, a': Attempt)
    requires LocalOk(c, id, a) && a.pc.Recording?
    requires a' == WrittenStep(a) || exists cause :: a' == InterruptedStep(a, cause, true)
    ensures Logged(RecordOf(id, a), a') && ByOuterClause(RecordOf(id, a))
  {
    assert RecordOf(id, a) == OuterRecord(id, a, a.pc.cause);
  }

  lemma LandedWriteIsOneRecord(c: Config, id: nat, g: Shared, a: Attempt, a': Attempt)
    requires LocalOk(c, id, a) && AtWrite(a.pc)
    requires a' == WrittenStep(a) || exists cause :: a' == InterruptedStep(a, cause, true)
    ensures OneRecord(id, g, a, g.(log := g.log + [RecordOf(id, a)]), a', RecordOf(id, a))
  {
    if a.pc.Emitting? { BodyWriteIsLogged(c, id, a, a'); } else { OuterWriteIsLogged(c, id, a, a'); }
  }

  lemma WriteEffect(c: Config, id: nat, g: Shared, a: Attempt)
    requires LocalOk(c, id, a) && AtWrite(a.pc)
    ensures LogEffect(id, g, a, g.(log := g.log + [RecordOf(id, a)]), WrittenStep(a))
  {
    LandedWriteIsOneRecord(c, id, g, a, WrittenStep(a));
    forall r | Logged(r, a) ensures Logged(r, WrittenStep(a)) {
      EarlierRecordStays(c, id, a, WrittenStep(a), r);
    }
  }

  ghost function LogAfterCut(id: nat, g: Shared, a: Attempt, landed: bool): Shared
    requires AtWrite(a.pc)
  {
    if landed then g.(log := g.log + [RecordOf(id, a)]) else g
  }

  lemma CutEffect(c: Config, id: nat, g: Shared, a: Attempt, cause: Cause, landed: bool)
    requires LocalOk(c, id, a) && AtWrite(a.pc)
    ensures LogEffect(id, g, a, LogAfterCut(id, g, a, landed), InterruptedStep(a, cause, landed))
  {
    var a' := InterruptedStep(a, cause, landed);
    if landed { LandedWriteIsOneRecord(c, id, g, a, a'); }
    forall r | Logged(r, a) ensures Logged(r, a') {
      EarlierRecordStays(c, id, a, a', r);
    }
  }

  lemma ExitEffect(c: Config, id: nat, g: Shared, g': Shared, a: Attempt, a': Attempt)
    requires LocalOk(c, id, a) && g'.log == g.log
    requires a' == a.(pc := a'.pc, slotHeld := a'.slotHeld) && (a.auditEmitted ==> ExitOf(a'.pc) == ExitOf(a.pc))
    ensures LogEffect(id, g, a, g', a')
  {
  }

  lemma RecordsByOneMore(log: seq<AuditRecord>, r: AuditRecord, id: nat, outer: bool)
    ensures RecordsBy(log + [r], id, outer) == RecordsBy(log, id, outer) + if Marks(r, id, outer) then 1 else 0
  {
    assert (log + [r])[..|log|] == log;
  }

  lemma WritersAfterUpdate(attempts: map<nat, Attempt>, id: nat, a: Attempt, outer: bool)
    requires id in attempts
    ensures Writers(attempts[id := a], outer) ==
              if Landed(EndOf(a, outer)) then Writers(attempts, outer) + {id} else Writers(attempts, outer) - {id}
  {
  }

  lemma SameWritersAfterUpdate(attempts: map<nat, Attempt>, id: nat, a: Attempt, outer: bool)
    requires id in attempts && Landed(EndOf(a, outer)) == Landed(EndOf(attempts[id], outer))
    ensures Writers(attempts[id := a], outer) == Writers(attempts, outer)
  {
    WritersAfterUpdate(attempts, id, a, outer);
  }

  lemma SameLogKeepsLog(s: System, id: nat, g': Shared, a': Attempt)
    requires LogLinked(s) && id in s.attempts && g'.log == s.shared.log
    requires forall r :: Logged(r, s.attempts[id]) ==> Logged(r, a')
    requires forall outer :: Landed(EndOf(a', outer)) == Landed(EndOf(s.attempts[id], outer))
    ensures LogLinked(System(s.attempts[id := a'], g'))
  {
    SameWritersAfterUpdate(s.attempts, id, a', false);
    SameWritersAfterUpdate(s.attempts, id, a', true);
  }

  lemma NewRecordKeepsCounts(s: System, id: nat, g': Shared, a': Attempt, r: AuditRecord, id': nat, outer: bool)
    requires LogLinked(s) && id in s.attempts && OneRecord(id, s.shared, s.attempts[id], g', a', r) && id' in s.attempts
    ensures RecordsBy(g'.log, id', outer) == if Landed(EndOf(s.attempts[id := a'][id'], outer)) then 1 else 0
  {
    RecordsByOneMore(s.shared.log, r, id', outer);
  }

  lemma NewRecordKeepsSize(s: System, id: nat, g': Shared, a': Attempt, r: AuditRecord)
    requires id in s.attempts && OneRecord(id, s.shared, s.attempts[id], g', a', r)
    ensures |Writers(s.attempts[id := a'], false)| + |Writers(s.attempts[id := a'], true)|
            == |Writers(s.attempts, false)| + |Writers(s.attempts, true)| + 1
  {
    var attempts, outer := s.attempts[id := a'], ByOuterClause(r);
    WritersAfterUpdate(s.attempts, id, a', outer);
    WritersAfterUpdate(s.attempts, id, a', !outer);
    assert id !in Writers(s.attempts, outer);
    assert |Writers(attempts, outer)| == |Writers(s.attempts, outer)| + 1;
    assert Writers(attempts, !outer) == Writers(s.attempts, !outer);
    if outer { assert !outer == false; } else { assert !outer == true; }
  }

  lemma NewRecordKeepsLog(s: System, id: nat, g': Shared, a': Attempt, r: AuditRecord)
    requires LogLinked(s) && id in s.attempts && OneRecord(id, s.shared, s.attempts[id], g', a', r)
    requires forall r :: Logged(r, s.attempts[id]) ==> Logged(r, a')
    ensures LogLinked(System(s.attempts[id := a'], g'))
  {
    var attempts := s.attempts[id := a'];
    forall i | 0 <= i < |g'.log|
      ensures g'.log[i].correlationId in attempts && Logged(g'.log[i], attempts[g'.log[i].correlationId])
    {
      assert i < |s.shared.log| ==> g'.log[i] == s.shared.log[i];
    }
    forall id', outer | id' in attempts
      ensures RecordsBy(g'.log, id', outer) == if Landed(EndOf(attempts[id'], outer)) then 1 else 0
    {
      NewRecordKeepsCounts(s, id, g', a', r, id', outer);
    }
    NewRecordKeepsSize(s, id, g', a', r);
  }

  lemma UpdateKeepsLog(s: System, id: nat, g': Shared, a': Attempt)
    requires LogLinked(s) && id in s.attempts && LogEffect(id, s.shared, s.attempts[id], g', a')
    ensures LogLinked(System(s.attempts[id := a'], g'))
  {
    if r: AuditRecord :| OneRecord(id, s.shared, s.attempts[id], g', a', r) {
      NewRecordKeepsLog(s, id, g', a', r);
    } else {
      SameLogKeepsLog(s, id, g', a');
    }
  }

  // ----- The upstream's calls and the attempts -----

  ghost predicate CallsLinked(s: System) {
    var calls := s.shared.calls;
    && (forall i :: 0 <= i < |calls| ==> calls[i].id in s.attempts && Forwarded(calls[i], s.attempts[calls[i].id]))
    && (forall i, j :: 0 <= i < j < |calls| ==> calls[i].id != calls[j].id)
    && (forall id :: id in s.attempts && s.attempts[id].concurrency == Passed ==> WasCalled(calls, id))
  }

  ghost predicate Forwarded(call: UpstreamCall, a: Attempt) {
    a.concurrency == Passed && call.principal == a.principal && call.tool == a.tool && call.arguments == a.arguments
  }

  ghost predicate WasCalled(calls: seq<UpstreamCall>, id: nat) {
    exists i :: 0 <= i < |calls| && calls[i].id == id
  }

  ghost predicate CallsEffect(id: nat, g: Shared, a: Attempt, g': Shared, a': Attempt) {
    && SameRequest(a, a')
    && (|| (g'.calls == g.calls && (a'.concurrency == Passed <==> a.concurrency == Passed))
        || (a.concurrency != Passed && a'.concurrency == Passed
            && g'.calls == g.calls + [UpstreamCall(id, a.principal, a.tool, a.arguments)]))
  }

  lemma UpdateKeepsCalls(s: System, id: nat, g': Shared, a': Attempt)
    requires CallsLinked(s) && id in s.attempts && CallsEffect(id, s.shared, s.attempts[id], g', a')
    ensures CallsLinked(System(s.attempts[id := a'], g'))
  {
    var a, calls, calls' := s.attempts[id], s.shared.calls, g'.calls;
    if calls' != calls {
      forall i | 0 <= i < |calls| ensures calls[i].id != id {
        assert Forwarded(calls[i], s.attempts[calls[i].id]);
      }
      assert calls'[|calls|].id == id;
      forall id' | id' in s.attempts && id' != id && s.attempts[id'].concurrency == Passed
        ensures WasCalled(calls', id')
      {
        var i :| 0 <= i < |calls| && calls[i].id == id';
        assert calls'[i].id == id';
      }
    } else {
      assert forall i :: 0 <= i < |calls| && calls[i].id == id ==> Forwarded(calls[i], a);
    }
  }

  // ----- The upstream's replies and the attempts -----

  /** An attempt holds the reply that the upstream gave to its own call. */
  ghost predicate RepliesLinked(s: System) {
    && s.shared.replies.Keys <= s.attempts.Keys
    && forall id :: id in s.attempts ==>
         s.attempts[id].result == if id in s.shared.replies then Some(s.shared.replies[id]) else None
  }

  ghost predicate RepliesEffect(id: nat, g: Shared, a: Attempt, g': Shared, a': Attempt) {
    || (g'.replies == g.replies && a'.result == a.result)
    || (a'.result.Some? && g'.replies == g.replies[id := a'.result.value])
  }

  lemma UpdateKeepsReplies(s: System, id: nat, g': Shared, a': Attempt)
    requires RepliesLinked(s) && id in s.attempts && RepliesEffect(id, s.shared, s.attempts[id], g', a')
    ensures RepliesLinked(System(s.attempts[id := a'], g'))
  {
  }

  // ----- The rate limiter and the attempts -----

  ghost predicate RateLinked(c: Config, start: real, s: System) {
    var events := s.shared.rateLog;
    && s.shared.levels == Rate.LevelsAfter(Law(c), events, |events|)
    && Rate.Orderly(start, events) && Rate.Settled(start, events, |events|, s.shared.now)
    && (forall id :: id in s.attempts && s.attempts[id].rate == Passed ==>
          id in Rate.GrantedIds(Law(c), events, 0, |events|, s.attempts[id].principal))
  }

  lemma {:induction false} LevelsIgnoreLater(law: TokenBucket.Schedule, events: seq<Rate.Event>, e: Rate.Event, n: nat)
    requires n <= |events|
    ensures Rate.LevelsAfter(law, events + [e], n) == Rate.LevelsAfter(law, events, n)
  {
    if n > 0 { LevelsIgnoreLater(law, events, e, n - 1); }
  }

  lemma {:induction false} GrantsIgnoreLater(law: TokenBucket.Schedule, events: seq<Rate.Event>, e: Rate.Event,
                                             n: nat, p: string)
    requires n <= |events|
    ensures Rate.GrantedIds(law, events + [e], 0, n, p) == Rate.GrantedIds(law, events, 0, n, p)
  {
    if n > 0 {
      GrantsIgnoreLater(law, events, e, n - 1, p);
      LevelsIgnoreLater(law, events, e, n - 1);
    }
  }

  /** Appending a use of the limiter at the current time. */
  lemma OneMoreUse(c: Config, start: real, s: System, e: Rate.Event)
    requires RateLinked(c, start, s) && e.time == s.shared.now
    ensures var events := s.shared.rateLog + [e];
            && Rate.Orderly(start, events) && Rate.Settled(start, events, |events|, s.shared.now)
            && Rate.LevelsAfter(Law(c), events, |events| - 1) == s.shared.levels
            && forall p :: Rate.GrantedIds(Law(c), events, 0, |events| - 1, p)
                           == Rate.GrantedIds(Law(c), s.shared.rateLog, 0, |s.shared.rateLog|, p)
  {
    var events := s.shared.rateLog;
    LevelsIgnoreLater(Law(c), events, e, |events|);
    forall p
      ensures Rate.GrantedIds(Law(c), events + [e], 0, |events|, p) == Rate.GrantedIds(Law(c), events, 0, |events|, p)
    {
      GrantsIgnoreLater(Law(c), events, e, |events|, p);
    }
  }

  lemma CheckRateKeepsRate(c: Config, start: real, s: System, id: nat)
    requires RateLinked(c, start, s) && id in s.attempts && s.attempts[id].rate != Passed
    ensures var (g', a') := RateStep(c, id, s.shared, s.attempts[id]);
            RateLinked(c, start, System(s.attempts[id := a'], g'))
  {
    var (g', a') := RateStep(c, id, s.shared, s.attempts[id]);
    var e := Rate.Acquire(id, s.attempts[id].principal, s.shared.now);
    OneMoreUse(c, start, s, e);
    var events := g'.rateLog;
    assert events == s.shared.rateLog + [e];
    var attempts := s.attempts[id := a'];
    forall i | i in attempts && attempts[i].rate == Passed
      ensures i in Rate.GrantedIds(Law(c), events, 0, |events|, attempts[i].principal)
    {
      if i != id {
        assert i in Rate.GrantedIds(Law(c), events, 0, |events| - 1, s.attempts[i].principal);
      }
    }
  }

  lemma LookKeepsRate(c: Config, start: real, s: System, p: string)
    requires RateLinked(c, start, s)
    ensures RateLinked(c, start, Apply(c, s, Look(p)))
  {
    var e := Rate.Inspect(p, s.shared.now);
    OneMoreUse(c, start, s, e);
    var events := s.shared.rateLog + [e];
    var t := Apply(c, s, Look(p));
    assert t.shared.rateLog == events;
    forall i | i in t.attempts && t.attempts[i].rate == Passed
      ensures i in Rate.GrantedIds(Law(c), events, 0, |events|, t.attempts[i].principal)
    {
      assert i in Rate.GrantedIds(Law(c), events, 0, |events| - 1, s.attempts[i].principal);
    }
  }

  ghost predicate NoRateEffect(g: Shared, a: Attempt, g': Shared, a': Attempt) {
    && g'.rateLog == g.rateLog && g'.levels == g.levels && g'.now == g.now
    && a'.rate == a.rate && a'.principal == a.principal
  }

  lemma UpdateKeepsRate(c: Config, start: real, s: System, id: nat, g': Shared, a': Attempt)
    requires RateLinked(c, start, s) && id in s.attempts && NoRateEffect(s.shared, s.attempts[id], g', a')
    ensures RateLinked(c, start, System(s.attempts[id := a'], g'))
  {
  }

  // ----- The slots and the attempts -----

  ghost function Holders(attempts: map<nat, Attempt>, p: string): set<nat> {
    set id | id in attempts && attempts[id].principal == p && attempts[id].slotHeld
  }

  ghost predicate SlotsLinked(c: Config, s: System) {
    forall p :: && Slot.ActiveOf(s.shared.slots, p) == |Holders(s.attempts, p)| <= c.maxConcurrent
                && Slot.ActiveOf(s.shared.slots, p) <= Slot.PeakOf(s.shared.slots, p) <= c.maxConcurrent
  }

  lemma HoldersAfterUpdate(attempts: map<nat, Attempt>, id: nat, a: Attempt, p: string)
    requires id in attempts && a.principal == attempts[id].principal
    ensures Holders(attempts[id := a], p) ==
              if a.principal != p || a.slotHeld == attempts[id].slotHeld then Holders(attempts, p)
              else if a.slotHeld then Holders(attempts, p) + {id}
              else Holders(attempts, p) - {id}
  {
  }

  ghost predicate SlotsEffect(c: Config, g: Shared, a: Attempt, g': Shared, a': Attempt) {
    && a'.principal == a.principal
    && (|| (g'.slots == g.slots && a'.slotHeld == a.slotHeld)
        || (!a.slotHeld && a'.slotHeld && Slot.HasRoom(g.slots, c.maxConcurrent, a.principal)
            && g'.slots == Slot.Acquired(g.slots, a.principal))
        || (a.slotHeld && !a'.slotHeld && g'.slots == Slot.Released(g.slots, a.principal)))
  }

  lemma UpdateKeepsSlots(c: Config, s: System, id: nat, g': Shared, a': Attempt)
    requires SlotsLinked(c, s) && id in s.attempts && SlotsEffect(c, s.shared, s.attempts[id], g', a')
    ensures SlotsLinked(c, System(s.attempts[id := a'], g'))
  {
    var a := s.attempts[id];
    var attempts := s.attempts[id := a'];
    forall p
      ensures Slot.ActiveOf(g'.slots, p) == |Holders(attempts, p)| <= c.maxConcurrent
      ensures Slot.ActiveOf(g'.slots, p) <= Slot.PeakOf(g'.slots, p) <= c.maxConcurrent
    {
      HoldersAfterUpdate(s.attempts, id, a', p);
      assert a.slotHeld <==> id in Holders(s.attempts, a.principal);
    }
  }

  // ----- The cache and the attempts -----

  /** The lock is held by the one attempt that is fetching, if by an attempt. */
  ghost predicate HolderLinked(s: System) {
    forall id :: s.shared.cache.holder == Some(Call(id)) <==> id in s.attempts && s.attempts[id].pc == Fetching
  }

  /** The list an attempt works with was served to it. */
  ghost predicate ServedLinked(s: System) {
    forall id :: id in s.attempts && s.attempts[id].upstreamTools.Some? ==>
      Served(Call(id), s.attempts[id].upstreamTools.value) in s.shared.cache.history
  }

  ghost predicate CacheLinked(s: System) { CacheOk(s.shared.cache) && HolderLinked(s) && ServedLinked(s) }

  ghost function CacheStepOf(id: nat, a: Attempt, action: Action): Option<CacheStep> {
    match action
    case EnterCache => Some(Enter(Call(id)))
    case FetchReturn(tools) => Some(FetchReturns(Call(id), tools))
    case FetchFail => Some(FetchEnds(Call(id)))
    case Cancel => if a.pc == Fetching then Some(FetchEnds(Call(id))) else None
    case _ => None
  }

  /** A step uses the cache as the cache's own machine allows, and an attempt
      keeps the list it was served. */
  ghost predicate CacheEffect(id: nat, step: Option<CacheStep>, g: Shared, a: Attempt, g': Shared, a': Attempt) {
    match step
    case None => g'.cache == g.cache && a'.upstreamTools == a.upstreamTools && (a'.pc == Fetching <==> a.pc == Fetching)
    case Some(use) =>
      && ToolCache.Enabled(g.cache, use) && g'.cache == ToolCache.Next(g.cache, use)
      && use != Invalidate && use.user == Call(id)
      && (a'.pc == Fetching <==> g'.cache.holder == Some(Call(id)))
      && a'.upstreamTools == if ServedBy(g.cache, use).Some? then ServedBy(g.cache, use) else a.upstreamTools
  }

  lemma NextKeepsHistory(c: Cache, use: CacheStep, e: CacheEvent)
    requires ToolCache.Enabled(c, use) && e in c.history
    ensures e in ToolCache.Next(c, use).history
  {
  }

  lemma UpdateKeepsHolder(s: System, id: nat, step: Option<CacheStep>, g': Shared, a': Attempt)
    requires HolderLinked(s) && id in s.attempts && CacheEffect(id, step, s.shared, s.attempts[id], g', a')
    ensures HolderLinked(System(s.attempts[id := a'], g'))
  {
  }

  lemma UpdateKeepsServed(s: System, id: nat, step: Option<CacheStep>, g': Shared, a': Attempt)
    requires ServedLinked(s) && id in s.attempts && CacheEffect(id, step, s.shared, s.attempts[id], g', a')
    ensures ServedLinked(System(s.attempts[id := a'], g'))
  {
    if step.Some? {
      forall e | e in s.shared.cache.history ensures e in g'.cache.history {
        NextKeepsHistory(s.shared.cache, step.value, e);
      }
      if ServedBy(s.shared.cache, step.value).Some? {
        var history := g'.cache.history;
        assert history[|history| - 1] == Served(Call(id), ServedBy(s.shared.cache, step.value).value);
      }
    }
  }

  lemma UpdateKeepsCache(s: System, id: nat, step: Option<CacheStep>, g': Shared, a': Attempt)
    requires CacheLinked(s) && id in s.attempts && CacheEffect(id, step, s.shared, s.attempts[id], g', a')
    ensures CacheLinked(System(s.attempts[id := a'], g'))
  {
    if step.Some? { NextKeepsCacheOk(s.shared.cache, step.value); }
    UpdateKeepsHolder(s, id, step, g', a');
    UpdateKeepsServed(s, id, step, g', a');
  }

  lemma UseKeepsCache(c: Config, s: System, use: CacheStep)
    requires CacheLinked(s) && Possible(s, CacheUse(use))
    ensures CacheLinked(Apply(c, s, CacheUse(use)))
  {
    NextKeepsCacheOk(s.shared.cache, use);
  }

  // ----- Every action's effect -----

  ghost predicate Effect(c: Config, id: nat, use: Option<CacheStep>, g: Shared, a: Attempt, g': Shared, a': Attempt) {
    && LocalOk(c, id, a') && LogEffect(id, g, a, g', a') && CallsEffect(id, g, a, g', a')
    && SlotsEffect(c, g, a, g', a') && CacheEffect(id, use, g, a, g', a') && RepliesEffect(id, g, a, g', a')
  }

  lemma QuietEffect(c: Config, id: nat, g: Shared, a: Attempt, a': Attempt)
    requires LocalOk(c, id, a') && Quiet(a, a')
    ensures Effect(c, id, None, g, a, g, a') && NoRateEffect(g, a, g, a')
  {
    UnwrittenHasNoRecords(a);
  }

  lemma RateEffect(c: Config, id: nat, g: Shared, a: Attempt)
    requires LocalOk(c, id, a) && a.pc == Arrived
    ensures var (g', a') := RateStep(c, id, g, a); Effect(c, id, None, g, a, g', a')
  {
    RateStepLocal(c, id, g, a);
    UnwrittenHasNoRecords(a);
  }

  /** The cache moves: the attempt is served a list, starts a fetch or gives up. */
  lemma CacheMoveEffect(c: Config, id: nat, use: CacheStep, g: Shared, a: Attempt, pc: Pc)
    requires LocalOk(c, id, a) && (a.pc == CacheWait || a.pc == Fetching)
    requires ToolCache.Enabled(g.cache, use) && use != Invalidate && use.user == Call(id)
    requires (use.Enter? && a.pc == CacheWait) || (!use.Enter? && a.pc == Fetching)
    requires if ServedBy(g.cache, use).Some? then pc == Checking
             else if use.Enter? then pc == Fetching
             else pc == Unwinding(Fault) || pc == Unwinding(Cancellation)
    ensures var g' := g.(cache := ToolCache.Next(g.cache, use));
            var a' := a.(pc := pc, upstreamTools := ServedBy(g.cache, use));
            Effect(c, id, Some(use), g, a, g', a') && NoRateEffect(g, a, g', a')
  {
    CacheMoveLocal(c, id, a, if ServedBy(g.cache, use).Some? then ServedBy(g.cache, use).value else []);
    UnwrittenHasNoRecords(a);
    assert a.upstreamTools == None;
  }

  lemma SlotEffect(c: Config, id: nat, g: Shared, a: Attempt)
    requires LocalOk(c, id, a) && a.pc == Acquiring
    ensures var (g', a') := SlotStep(c, id, g, a); Effect(c, id, None, g, a, g', a') && NoRateEffect(g, a, g', a')
  {
    SlotStepLocal(c, id, g, a);
    UnwrittenHasNoRecords(a);
  }

  /** A write that ends moves nothing but the log, the flag and the attempt itself. */
  lemma WriteEndEffect(c: Config, id: nat, g: Shared, a: Attempt, g': Shared, a': Attempt)
    requires LocalOk(c, id, a') && LogEffect(id, g, a, g', a')
    requires g' == g.(log := g'.log) && a.pc != Fetching && a'.pc != Fetching
    requires a'
            == a.(pc := a'.pc, auditEmitted := a'.auditEmitted, bodyWrite := a'.bodyWrite, outerWrite := a'.outerWrite)
    ensures Effect(c, id, None, g, a, g', a') && NoRateEffect(g, a, g', a')
  {
  }

  lemma WrittenEffect(c: Config, id: nat, g: Shared, a: Attempt)
    requires LocalOk(c, id, a) && AtWrite(a.pc)
    ensures var g' := g.(log := g.log + [RecordOf(id, a)]);
            Effect(c, id, None, g, a, g', WrittenStep(a)) && NoRateEffect(g, a, g', WrittenStep(a))
  {
    WrittenStepLocal(c, id, a);
    WriteEffect(c, id, g, a);
    WriteEndEffect(c, id, g, a, g.(log := g.log + [RecordOf(id, a)]), WrittenStep(a));
  }

  lemma InterruptedStepMoves(a: Attempt, cause: Cause, landed: bool)
    requires AtWrite(a.pc)
    ensures var a' := InterruptedStep(a, cause, landed);
            a'.pc != Fetching
            && a' == a.(pc := a'.pc, auditEmitted := a'.auditEmitted,
                        bodyWrite := a'.bodyWrite, outerWrite := a'.outerWrite)
  {
  }

  lemma InterruptedEffect(c: Config, id: nat, g: Shared, a: Attempt, cause: Cause, landed: bool)
    requires LocalOk(c, id, a) && AtWrite(a.pc)
    ensures var g', a' := LogAfterCut(id, g, a, landed), InterruptedStep(a, cause, landed);
            Effect(c, id, None, g, a, g', a') && NoRateEffect(g, a, g', a')
  {
    InterruptedStepLocal(c, id, a, cause, landed);
    CutEffect(c, id, g, a, cause, landed);
    InterruptedStepMoves(a, cause, landed);
    WriteEndEffect(c, id, g, a, LogAfterCut(id, g, a, landed), InterruptedStep(a, cause, landed));
  }

  lemma LeaveScopeEffect(c: Config, id: nat, g: Shared, a: Attempt)
    requires LocalOk(c, id, a) && a.pc.LeavingScope?
    ensures var g' := if a.slotHeld then g.(slots := Slot.Released(g.slots, a.principal)) else g;
            var a' := a.(slotHeld := false, pc := AfterExit(a.pc.exit));
            Effect(c, id, None, g, a, g', a') && NoRateEffect(g, a, g', a')
  {
    var g' := if a.slotHeld then g.(slots := Slot.Released(g.slots, a.principal)) else g;
    LeaveScopeLocal(c, id, a);
    ExitEffect(c, id, g, g', a, a.(slotHeld := false, pc := AfterExit(a.pc.exit)));
  }

  lemma UnwindEffect(c: Config, id: nat, g: Shared, a: Attempt)
    requires LocalOk(c, id, a) && a.pc.Unwinding?
    ensures Effect(c, id, None, g, a, g, UnwindStep(a)) && NoRateEffect(g, a, g, UnwindStep(a))
  {
    UnwindStepLocal(c, id, a);
    ExitEffect(c, id, g, g, a, UnwindStep(a));
  }

  lemma ConcludedEffect(c: Config, id: nat, g: Shared, a: Attempt, outcome: Outcome, category: Category, exit: Exit)
    requires LocalOk(c, id, a) && a.pc == Calling
    requires ExitFits(RecordOf(id, Concluded(a, outcome, category, exit)), a.result, exit)
    requires (outcome, category) in {(UpstreamTimeout, CategoryTimeout), (UpstreamError, CategoryError),
                                     (Cancelled, CategoryCancelled)}
    ensures var a' := Concluded(a, outcome, category, exit);
            Effect(c, id, None, g, a, g, a') && NoRateEffect(g, a, g, a')
  {
    ConcludedLocal(c, id, a, outcome, category, exit);
    QuietEffect(c, id, g, a, Concluded(a, outcome, category, exit));
  }

  lemma RepliedEffect(c: Config, id: nat, g: Shared, a: Attempt, result: CallResult)
    requires LocalOk(c, id, a) && a.pc == Calling
    ensures var g' := g.(replies := g.replies[id := result]);
            var a' := RepliedStep(id, a, result);
            Effect(c, id, None, g, a, g', a') && NoRateEffect(g, a, g', a')
  {
    RepliedLocal(c, id, a, result);
    UnwrittenHasNoRecords(a);
  }

  lemma CancelEffect(c: Config, id: nat, g: Shared, a: Attempt)
    requires LocalOk(c, id, a) && Can(id, g, a, Cancel)
    ensures var (g', a') := CancelStep(id, g, a);
            Effect(c, id, CacheStepOf(id, a, Cancel), g, a, g', a') && NoRateEffect(g, a, g', a')
  {
    if a.pc == Calling {
      ConcludedEffect(c, id, g, a, Cancelled, CategoryCancelled, Raise(Cancellation));
    } else if a.pc == Fetching {
      CacheMoveEffect(c, id, FetchEnds(Call(id)), g, a, Unwinding(Cancellation));
    } else {
      CacheMoveLocal(c, id, a, []);
      QuietEffect(c, id, g, a, a.(pc := Unwinding(Cancellation)));
    }
  }

  ghost predicate EffectOf(c: Config, id: nat, g: Shared, a: Attempt, action: Action, r: (Shared, Attempt)) {
    Effect(c, id, CacheStepOf(id, a, action), g, a, r.0, r.1) && (action != CheckRate ==> NoRateEffect(g, a, r.0, r.1))
  }

  ghost predicate AtUpstream(action: Action) {
    action in {UpstreamTimesOut, UpstreamFails, Write, LeaveScope, Unwind}
    || action.UpstreamReturns? || action.InterruptWrite?
  }

  ghost predicate AtCache(action: Action) {
    action in {EnterCache, FetchFail, Cancel} || action.FetchReturn?
  }

  lemma CacheActionEffect(c: Config, id: nat, g: Shared, a: Attempt, action: Action)
    requires LocalOk(c, id, a) && Can(id, g, a, action) && AtCache(action)
    ensures EffectOf(c, id, g, a, action, Perform(c, id, g, a, action))
  {
    match action
    case EnterCache =>
      CacheMoveEffect(c, id, Enter(Call(id)), g, a, if g.cache.tools.Some? then Checking else Fetching);
    case FetchReturn(tools) => CacheMoveEffect(c, id, FetchReturns(Call(id), tools), g, a, Checking);
    case FetchFail => CacheMoveEffect(c, id, FetchEnds(Call(id)), g, a, Unwinding(Fault));
    case Cancel => CancelEffect(c, id, g, a);
    case _ =>
  }

  lemma StageActionEffect(c: Config, id: nat, g: Shared, a: Attempt, action: Action)
    requires LocalOk(c, id, a) && Can(id, g, a, action) && !AtUpstream(action) && !AtCache(action)
    ensures EffectOf(c, id, g, a, action, Perform(c, id, g, a, action))
  {
    match action
    case CheckRate => RateEffect(c, id, g, a);
    case Authorize => AuthorizeStepLocal(c, id, a); QuietEffect(c, id, g, a, AuthorizeStep(c, id, a));
    case CheckSchema => SchemaStepLocal(c, id, a); QuietEffect(c, id, g, a, SchemaStep(c, id, a));
    case EvaluatePolicy => PolicyStepLocal(c, id, a); QuietEffect(c, id, g, a, PolicyStep(c, id, a));
    case AcquireSlot => SlotEffect(c, id, g, a);
    case Crash => CrashLocal(c, id, a); QuietEffect(c, id, g, a, a.(pc := Unwinding(Fault)));
    case _ =>
  }

  lemma TimeoutEffect(c: Config, id: nat, g: Shared, a: Attempt)
    requires LocalOk(c, id, a) && a.pc == Calling
    ensures EffectOf(c, id, g, a, UpstreamTimesOut, Perform(c, id, g, a, UpstreamTimesOut))
  {
    ConcludedEffect(c, id, g, a, UpstreamTimeout, CategoryTimeout,
                    Return(Finalize(ErrorResult(UpstreamTimedOut(a.tool)), id)));
  }

  lemma FailureEffect(c: Config, id: nat, g: Shared, a: Attempt)
    requires LocalOk(c, id, a) && a.pc == Calling
    ensures EffectOf(c, id, g, a, UpstreamFails, Perform(c, id, g, a, UpstreamFails))
  {
    ConcludedEffect(c, id, g, a, UpstreamError, CategoryError,
                    Return(Finalize(ErrorResult(UpstreamFailed(a.tool)), id)));
  }

  lemma ExitActionEffect(c: Config, id: nat, g: Shared, a: Attempt, action: Action)
    requires LocalOk(c, id, a) && Can(id, g, a, action)
    requires action in {Write, LeaveScope, Unwind} || action.InterruptWrite?
    ensures EffectOf(c, id, g, a, action, Perform(c, id, g, a, action))
  {
    match action
    case Write => WrittenEffect(c, id, g, a);
    case InterruptWrite(cause, landed) => InterruptedEffect(c, id, g, a, cause, landed);
    case LeaveScope => LeaveScopeEffect(c, id, g, a);
    case Unwind => UnwindEffect(c, id, g, a);
  }

  lemma UpstreamActionEffect(c: Config, id: nat, g: Shared, a: Attempt, action: Action)
    requires LocalOk(c, id, a) && Can(id, g, a, action) && AtUpstream(action)
    ensures EffectOf(c, id, g, a, action, Perform(c, id, g, a, action))
  {
    match action
    case UpstreamReturns(result) =>
      RepliedEffect(c, id, g, a, result);
    case UpstreamTimesOut => TimeoutEffect(c, id, g, a);
    case UpstreamFails => FailureEffect(c, id, g, a);
    case _ => ExitActionEffect(c, id, g, a, action);
  }

  // ----- All together -----

  ghost predicate AllLocal(c: Config, s: System) { forall id :: id in s.attempts ==> LocalOk(c, id, s.attempts[id]) }

  ghost predicate Inv(c: Config, start: real, s: System) {
    && AllLocal(c, s) && LogLinked(s) && CallsLinked(s) && RepliesLinked(s)
    && RateLinked(c, start, s) && SlotsLinked(c, s) && CacheLinked(s)
  }

  lemma InitialInv(c: Config, start: real)
    requires ValidConfig(c)
    ensures Inv(c, start, Initial(start))
  {
  }

  lemma ArriveKeepsSlots(c: Config, s: System, id: nat, a: Attempt)
    requires SlotsLinked(c, s) && id !in s.attempts && !a.slotHeld
    ensures SlotsLinked(c, s.(attempts := s.attempts[id := a]))
  {
    forall p ensures Holders(s.attempts[id := a], p) == Holders(s.attempts, p) {
      forall i ensures i in Holders(s.attempts[id := a], p) <==> i in Holders(s.attempts, p) {}
    }
  }

  lemma ArriveKeepsCache(s: System, id: nat, a: Attempt)
    requires CacheLinked(s) && id !in s.attempts && a.pc != Fetching && a.upstreamTools.None?
    ensures CacheLinked(s.(attempts := s.attempts[id := a]))
  {
  }

  lemma {:induction false} NoRecords(log: seq<AuditRecord>, id: nat, outer: bool)
    requires forall i :: 0 <= i < |log| ==> log[i].correlationId != id
    ensures RecordsBy(log, id, outer) == 0
  {
    if log != [] { NoRecords(log[..|log| - 1], id, outer); }
  }

  lemma ArriveKeepsCalls(c: Config, start: real, s: System, id: nat, a: Attempt)
    requires CallsLinked(s) && RepliesLinked(s) && RateLinked(c, start, s) && id !in s.attempts
    requires a.concurrency == NotEvaluated && a.rate == Failed && a.result == None
    ensures var t := s.(attempts := s.attempts[id := a]); CallsLinked(t) && RepliesLinked(t) && RateLinked(c, start, t)
  {
  }

  lemma ArriveKeepsLog(s: System, id: nat, a: Attempt)
    requires LogLinked(s) && id !in s.attempts && Unwritten(a)
    ensures LogLinked(s.(attempts := s.attempts[id := a]))
  {
    forall outer ensures RecordsBy(s.shared.log, id, outer) == 0 { NoRecords(s.shared.log, id, outer); }
    forall outer ensures Writers(s.attempts[id := a], outer) == Writers(s.attempts, outer) {
      forall i ensures i in Writers(s.attempts[id := a], outer) <==> i in Writers(s.attempts, outer) {}
    }
  }

  lemma ArriveKeepsInv(c: Config, start: real, s: System, id: nat, principal: string, tool: string,
                       arguments: Arguments)
    requires Inv(c, start, s) && id !in s.attempts
    ensures Inv(c, start, Apply(c, s, Arrive(id, principal, tool, arguments)))
  {
    var a := NewAttempt(principal, tool, arguments);
    assert LocalOk(c, id, a);
    ArriveKeepsSlots(c, s, id, a);
    ArriveKeepsCache(s, id, a);
    ArriveKeepsCalls(c, start, s, id, a);
    ArriveKeepsLog(s, id, a);
  }

  lemma UpdateKeepsLocal(c: Config, s: System, id: nat, g': Shared, a': Attempt)
    requires AllLocal(c, s) && id in s.attempts && LocalOk(c, id, a')
    ensures AllLocal(c, System(s.attempts[id := a'], g'))
  {
  }

  lemma EffectKeepsLinks(c: Config, s: System, id: nat, use: Option<CacheStep>, g': Shared, a': Attempt)
    requires AllLocal(c, s) && LogLinked(s) && CallsLinked(s) && RepliesLinked(s) && SlotsLinked(c, s) && CacheLinked(s)
    requires id in s.attempts && Effect(c, id, use, s.shared, s.attempts[id], g', a')
    ensures var t := System(s.attempts[id := a'], g');
            AllLocal(c, t) && LogLinked(t) && CallsLinked(t) && RepliesLinked(t) && SlotsLinked(c, t) && CacheLinked(t)
  {
    UpdateKeepsLocal(c, s, id, g', a');
    UpdateKeepsLog(s, id, g', a');
    UpdateKeepsCalls(s, id, g', a');
    UpdateKeepsReplies(s, id, g', a');
    UpdateKeepsSlots(c, s, id, g', a');
    UpdateKeepsCache(s, id, use, g', a');
  }

  lemma ActKeepsInv(c: Config, start: real, s: System, id: nat, action: Action)
    requires Inv(c, start, s) && Possible(s, Act(id, action))
    ensures Inv(c, start, Apply(c, s, Act(id, action)))
  {
    var g, a := s.shared, s.attempts[id];
    var (g', a') := Perform(c, id, g, a, action);
    if AtUpstream(action) { UpstreamActionEffect(c, id, g, a, action); }
    else if AtCache(action) { CacheActionEffect(c, id, g, a, action); }
    else { StageActionEffect(c, id, g, a, action); }
    EffectKeepsLinks(c, s, id, CacheStepOf(id, a, action), g', a');
    if action == CheckRate {
      CheckRateKeepsRate(c, start, s, id);
    } else {
      UpdateKeepsRate(c, start, s, id, g', a');
    }
  }

  lemma ApplyKeepsInv(c: Config, start: real, s: System, step: Step)
    requires Inv(c, start, s) && Possible(s, step)
    ensures Inv(c, start, Apply(c, s, step))
  {
    match step
    case Arrive(id, principal, tool, arguments) => ArriveKeepsInv(c, start, s, id, principal, tool, arguments);
    case Act(id, action) => ActKeepsInv(c, start, s, id, action);
    case Tick(time) =>
    case CacheUse(use) => UseKeepsCache(c, s, use);
    case Look(p) => LookKeepsRate(c, start, s, p);
  }

  /** Every reachable state. */
  lemma {:induction false} Reachable(c: Config, start: real, states: seq<System>, steps: seq<Step>, n: nat)
    requires ValidConfig(c) && Pipeline.Run(c, start, states, steps) && n < |states|
    ensures Inv(c, start, states[n])
  {
    if n == 0 {
      InitialInv(c, start);
    } else {
      Reachable(c, start, states, steps, n - 1);
      assert states[n - 1 + 1] == Apply(c, states[n - 1], steps[n - 1]);
      ApplyKeepsInv(c, start, states[n - 1], steps[n - 1]);
    }
  }
}
