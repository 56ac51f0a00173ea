/** The audit trail over whole runs: how many records an attempt leaves, what they
    say, and what its caller gets, whatever the interleaving and whichever audit
    writes are cut short. */
module PipelineAudit {
  import opened Wrappers
  import opened Json
  import opened ArgumentPolicy
  import opened AuditLog
  import opened Pipeline
  import opened PipelineInvariants
  import opened PipelineTheorems
  import Rate = RateLimiter

  // ----- The ends of an attempt's writes -----

  /** How the audit writes of attempt `id` ended, in the order of the run. */
  ghost function WriteEnds(steps: seq<Step>, id: nat): seq<WriteEnd> {
    if steps == [] then []
    else WriteEnds(steps[..|steps| - 1], id) + EndBy(steps[|steps| - 1], id)
  }

  ghost function EndAsSeq(end: Option<WriteEnd>): seq<WriteEnd> { if end.Some? then [end.value] else [] }

  ghost function EndsOf(s: System, id: nat): seq<WriteEnd> {
    if id !in s.attempts then [] else EndAsSeq(s.attempts[id].bodyWrite) + EndAsSeq(s.attempts[id].outerWrite)
  }

  ghost function LandedCount(ends: seq<WriteEnd>): nat {
    if ends == [] then 0
    else LandedCount(ends[..|ends| - 1]) + if Landed(Some(ends[|ends| - 1])) then 1 else 0
  }

  ghost predicate SameWrites(a: Attempt, a': Attempt) {
    a'.bodyWrite == a.bodyWrite && a'.outerWrite == a.outerWrite && a'.auditEmitted == a.auditEmitted
  }

  lemma SchemaEndsNoWrite(c: Config, id: nat, a: Attempt)
    requires a.upstreamTools.Some?
    ensures SameWrites(a, SchemaStep(c, id, a))
  {
  }

  lemma PolicyEndsNoWrite(c: Config, id: nat, a: Attempt)
    requires a.toolPolicy.Some?
    ensures SameWrites(a, PolicyStep(c, id, a))
  {
  }

  lemma AuthorizeEndsNoWrite(c: Config, id: nat, a: Attempt)
    ensures SameWrites(a, AuthorizeStep(c, id, a))
  {
  }

  lemma SlotEndsNoWrite(c: Config, id: nat, g: Shared, a: Attempt)
    ensures SameWrites(a, SlotStep(c, id, g, a).1) && SlotStep(c, id, g, a).0.log == g.log
  {
  }

  lemma StagesEndNoWrite(c: Config, id: nat, g: Shared, a: Attempt, action: Action)
    requires Can(id, g, a, action) && !AtUpstream(action) && !AtCache(action)
    ensures var (g', a') := Perform(c, id, g, a, action); SameWrites(a, a') && g'.log == g.log
  {
    match action
    case Authorize => AuthorizeEndsNoWrite(c, id, a);
    case CheckSchema => SchemaEndsNoWrite(c, id, a);
    case EvaluatePolicy => PolicyEndsNoWrite(c, id, a);
    case AcquireSlot => SlotEndsNoWrite(c, id, g, a);
    case _ =>
  }

  lemma CacheMovesEndNoWrite(c: Config, id: nat, g: Shared, a: Attempt, action: Action)
    requires Can(id, g, a, action) && AtCache(action)
    ensures var (g', a') := Perform(c, id, g, a, action); SameWrites(a, a') && g'.log == g.log
  {
    match action
    case EnterCache =>
      if g.cache.tools.Some? {
      } else {
      }
    case FetchReturn(_) =>
    case FetchFail =>
    case Cancel =>
  }

  lemma UpstreamMovesEndNoWrite(c: Config, id: nat, g: Shared, a: Attempt, action: Action)
    requires Can(id, g, a, action) && AtUpstream(action) && action != Write && !action.InterruptWrite?
    ensures var (g', a') := Perform(c, id, g, a, action); SameWrites(a, a') && g'.log == g.log
  {
  }

  lemma OtherActionsEndNoWrite(c: Config, id: nat, g: Shared, a: Attempt, action: Action)
    requires Can(id, g, a, action) && action != Write && !action.InterruptWrite?
    ensures var (g', a') := Perform(c, id, g, a, action); SameWrites(a, a') && g'.log == g.log
  {
    if AtUpstream(action) { UpstreamMovesEndNoWrite(c, id, g, a, action); }
    else if AtCache(action) { CacheMovesEndNoWrite(c, id, g, a, action); }
    else { StagesEndNoWrite(c, id, g, a, action); }
  }

  ghost function EndBy(step: Step, id: nat): seq<WriteEnd> {
    match step
    case Act(i, Write) => if i == id then [Completed] else []
    case Act(i, InterruptWrite(cause, landed)) => if i == id then [Cut(cause, landed)] else []
    case _ => []
  }

  /** At a write, the ends so far are those of earlier writes only. */
  lemma WritesInOrder(c: Config, id: nat, a: Attempt)
    requires LocalOk(c, id, a) && AtWrite(a.pc)
    ensures a.outerWrite == None && (a.pc.Emitting? ==> a.bodyWrite == None)
  {
  }

  /** The one end more, in its place. */
  lemma OneEndMore(a: Attempt, a': Attempt, end: WriteEnd)
    requires a.outerWrite == None && (a.bodyWrite == None || a'.bodyWrite == a.bodyWrite)
    requires if a.bodyWrite == a'.bodyWrite then a'.outerWrite == Some(end)
             else a'.bodyWrite == Some(end) && a'.outerWrite == None
    ensures EndAsSeq(a'.bodyWrite) + EndAsSeq(a'.outerWrite)
            == EndAsSeq(a.bodyWrite) + EndAsSeq(a.outerWrite) + [end]
  {
  }

  lemma WriteEndsOneWrite(c: Config, s: System, id: nat, action: Action)
    requires id in s.attempts && LocalOk(c, id, s.attempts[id]) && Possible(s, Act(id, action))
    requires action == Write || action.InterruptWrite?
    ensures EndsOf(Apply(c, s, Act(id, action)), id) == EndsOf(s, id) + EndBy(Act(id, action), id)
  {
    var a := s.attempts[id];
    WritesInOrder(c, id, a);
    if action == Write { OneEndMore(a, WrittenStep(a), Completed); }
    else { OneEndMore(a, InterruptedStep(a, action.cause, action.landed), Cut(action.cause, action.landed)); }
  }

  lemma OtherActionsKeepEnds(c: Config, s: System, id: nat, action: Action)
    requires id in s.attempts && Possible(s, Act(id, action)) && action != Write && !action.InterruptWrite?
    ensures EndsOf(Apply(c, s, Act(id, action)), id) == EndsOf(s, id) + EndBy(Act(id, action), id)
  {
    OtherActionsEndNoWrite(c, id, s.shared, s.attempts[id], action);
  }

  lemma StepEndsAtMostOneWrite(c: Config, s: System, step: Step, id: nat)
    requires AllLocal(c, s) && Possible(s, step)
    ensures EndsOf(Apply(c, s, step), id) == EndsOf(s, id) + EndBy(step, id)
  {
    if step.Act? && step.id == id {
      if step.action == Write || step.action.InterruptWrite? { WriteEndsOneWrite(c, s, id, step.action); }
      else { OtherActionsKeepEnds(c, s, id, step.action); }
    }
  }

  /** What the state remembers of an attempt's writes is what the run did. */
  lemma {:induction false} StateRemembersTheWrites(c: Config, start: real, states: seq<System>, steps: seq<Step>,
                                                   n: nat, id: nat)
    requires ValidConfig(c) && Pipeline.Run(c, start, states, steps) && n < |states|
    ensures WriteEnds(steps[..n], id) == EndsOf(states[n], id)
  {
    if n > 0 {
      StateRemembersTheWrites(c, start, states, steps, n - 1, id);
      assert AllLocal(c, states[n - 1]) by { Reachable(c, start, states, steps, n - 1); }
      assert states[n - 1 + 1] == Apply(c, states[n - 1], steps[n - 1]);
      assert steps[..n][..n - 1] == steps[..n - 1];
      StepEndsAtMostOneWrite(c, states[n - 1], steps[n - 1], id);
    }
  }

  // ----- How many records -----

  ghost function RecordsUnder(log: seq<AuditRecord>, id: nat): nat {
    if log == [] then 0
    else RecordsUnder(log[..|log| - 1], id) + if log[|log| - 1].correlationId == id then 1 else 0
  }

  lemma {:induction false} RecordsAreByBodyOrOuter(log: seq<AuditRecord>, id: nat)
    ensures RecordsUnder(log, id) == RecordsBy(log, id, false) + RecordsBy(log, id, true)
  {
    if log != [] { RecordsAreByBodyOrOuter(log[..|log| - 1], id); }
  }

  lemma LandedEnds(s: System, id: nat)
    requires id in s.attempts
    ensures LandedCount(EndsOf(s, id))
            == (if Landed(s.attempts[id].bodyWrite) then 1 else 0)
               + (if Landed(s.attempts[id].outerWrite) then 1 else 0)
  {
    var a := s.attempts[id];
    var body, outer := EndAsSeq(a.bodyWrite), EndAsSeq(a.outerWrite);
    LandedCountOfEnd([], a.bodyWrite);
    LandedCountOfEnd(body, a.outerWrite);
    assert [] + body == body && EndsOf(s, id) == body + outer;
  }

  lemma LandedCountOfEnd(ends: seq<WriteEnd>, end: Option<WriteEnd>)
    ensures LandedCount(ends + EndAsSeq(end)) == LandedCount(ends) + if Landed(end) then 1 else 0
  {
    match end
    case None => assert ends + [] == ends;
    case Some(e) => assert (ends + [e])[..|ends|] == ends && (ends + [e])[|ends|] == e;
  }

  ghost predicate CutShort(end: Option<WriteEnd>, landed: bool) {
    end.Some? && end.value.Cut? && end.value.landed == landed
  }

  /** Which writes a finished attempt made, and when they leave no record or two. */
  ghost predicate CountFits(a: Attempt, n: nat) {
    && (a.bodyWrite == Some(Completed) <==> a.outerWrite == None)
    && (n == 0 <==> CutShort(a.outerWrite, false) && !CutShort(a.bodyWrite, true))
    && (n == 2 <==> CutShort(a.bodyWrite, true) && Landed(a.outerWrite))
    && n <= 2
  }

  lemma LocalInRuns(c: Config, start: real, states: seq<System>, steps: seq<Step>, s: System, id: nat)
    requires Reached(c, start, states, steps, s) && id in s.attempts
    ensures LocalOk(c, id, s.attempts[id])
  {
    Reachable(c, start, states, steps, |steps|);
  }

  lemma RecordsAreLandedWrites(c: Config, start: real, states: seq<System>, steps: seq<Step>, s: System, id: nat)
    requires Reached(c, start, states, steps, s) && id in s.attempts
    ensures RecordsUnder(s.shared.log, id)
            == (if Landed(s.attempts[id].bodyWrite) then 1 else 0)
               + (if Landed(s.attempts[id].outerWrite) then 1 else 0)
  {
    assert LogLinked(s) by { Reachable(c, start, states, steps, |steps|); }
    RecordsAreByBodyOrOuter(s.shared.log, id);
  }

  /** In every run an attempt has as many records as writes of its that landed.
      One whose first write returned makes no other. So a finished attempt has
      none exactly when the outer clause's write was cut short and lost and no
      record of the body landed before; two exactly when the body's write was cut
      short after landing and the outer clause's landed too; else one. */
  lemma {:induction false} OneRecordPerAttempt(c: Config, start: real, states: seq<System>, steps: seq<Step>,
                                               s: System, id: nat)
    requires Reached(c, start, states, steps, s) && id in s.attempts
    ensures RecordsUnder(s.shared.log, id) == LandedCount(WriteEnds(steps, id))
    ensures var a, n := s.attempts[id], RecordsUnder(s.shared.log, id);
            a.pc.Finished? ==> CountFits(a, n)
  {
    LandedEndsInRuns(c, start, states, steps, s, id);
    RecordsAreLandedWrites(c, start, states, steps, s, id);
    if s.attempts[id].pc.Finished? { FinishedCount(c, start, states, steps, s, id); }
  }

  lemma LandedEndsInRuns(c: Config, start: real, states: seq<System>, steps: seq<Step>, s: System, id: nat)
    requires Reached(c, start, states, steps, s) && id in s.attempts
    ensures LandedCount(WriteEnds(steps, id))
            == (if Landed(s.attempts[id].bodyWrite) then 1 else 0)
               + (if Landed(s.attempts[id].outerWrite) then 1 else 0)
  {
    assert steps[..|steps|] == steps;
    StateRemembersTheWrites(c, start, states, steps, |steps|, id);
    LandedEnds(s, id);
  }

  lemma FinishedCount(c: Config, start: real, states: seq<System>, steps: seq<Step>, s: System, id: nat)
    requires Reached(c, start, states, steps, s) && id in s.attempts && s.attempts[id].pc.Finished?
    ensures CountFits(s.attempts[id], RecordsUnder(s.shared.log, id))
  {
    var a := s.attempts[id];
    RecordsAreLandedWrites(c, start, states, steps, s, id);
    assert WritesFit(a, a.pc.exit) by { LocalInRuns(c, start, states, steps, s, id); }
    LandedWritesCount(a);
  }

  lemma LandedWritesCount(a: Attempt)
    requires a.pc.Finished? && WritesFit(a, a.pc.exit)
    ensures CountFits(a, (if Landed(a.bodyWrite) then 1 else 0) + (if Landed(a.outerWrite) then 1 else 0))
  {
  }

  /** Until it ends a write, an attempt has no record. */
  lemma NoRecordBeforeTheWrite(c: Config, start: real, states: seq<System>, steps: seq<Step>, s: System, id: nat)
    requires Reached(c, start, states, steps, s) && id in s.attempts
    requires var pc := s.attempts[id].pc; !pc.LeavingScope? && !pc.Unwinding? && !pc.Recording? && !pc.Finished?
    ensures RecordsUnder(s.shared.log, id) == 0
  {
    RecordsAreLandedWrites(c, start, states, steps, s, id);
    assert Unwritten(s.attempts[id]) by { LocalInRuns(c, start, states, steps, s, id); }
  }

  ghost predicate NoWriteCut(steps: seq<Step>) {
    forall i :: 0 <= i < |steps| ==> !(steps[i].Act? && steps[i].action.InterruptWrite?)
  }

  lemma {:induction false} AllWritesComplete(steps: seq<Step>, id: nat)
    requires NoWriteCut(steps)
    ensures forall i :: 0 <= i < |WriteEnds(steps, id)| ==> WriteEnds(steps, id)[i] == Completed
  {
    if steps != [] { AllWritesComplete(steps[..|steps| - 1], id); }
  }

  /** In a run that cuts no audit write short, none is remembered as cut short. */
  lemma NothingCut(c: Config, start: real, states: seq<System>, steps: seq<Step>, s: System, id: nat)
    requires Reached(c, start, states, steps, s) && id in s.attempts && NoWriteCut(steps)
    ensures s.attempts[id].bodyWrite in {None, Some(Completed)} && s.attempts[id].outerWrite in {None, Some(Completed)}
  {
    assert steps[..|steps|] == steps;
    StateRemembersTheWrites(c, start, states, steps, |steps|, id);
    AllWritesComplete(steps, id);
    var ends, a := EndsOf(s, id), s.attempts[id];
    if a.bodyWrite.Some? { assert ends[0] == a.bodyWrite.value; }
    if a.outerWrite.Some? { assert ends[|ends| - 1] == a.outerWrite.value; }
  }

  ghost predicate AllFinished(s: System) { forall id :: id in s.attempts ==> s.attempts[id].pc.Finished? }

  ghost function RecordedTwice(s: System): set<nat> { set id | id in s.attempts && RecordsUnder(s.shared.log, id) == 2 }

  ghost function Unrecorded(s: System): set<nat> { set id | id in s.attempts && RecordsUnder(s.shared.log, id) == 0 }

  /** Conservation: records and attempts without one are together as many as
      attempts and those with two. */
  lemma AsManyRecordsAsAttempts(c: Config, start: real, states: seq<System>, steps: seq<Step>, s: System)
    requires Reached(c, start, states, steps, s)
    ensures |s.shared.log| + |Unrecorded(s)| == |s.attempts| + |RecordedTwice(s)|
    ensures NoWriteCut(steps) && AllFinished(s) ==> |s.shared.log| == |s.attempts|
  {
    var body, outer := Writers(s.attempts, false), Writers(s.attempts, true);
    assert |s.shared.log| == |body| + |outer| by { Reachable(c, start, states, steps, |steps|); }
    RecordsByWriters(c, start, states, steps, s);
    Inclusion(s.attempts.Keys, body, outer);
    if NoWriteCut(steps) && AllFinished(s) {
      forall id | id in s.attempts ensures RecordsUnder(s.shared.log, id) == 1 {
        OneWhenNothingCut(c, start, states, steps, s, id);
      }
      assert RecordedTwice(s) == {} && Unrecorded(s) == {};
    }
  }

  lemma RecordsByWriters(c: Config, start: real, states: seq<System>, steps: seq<Step>, s: System)
    requires Reached(c, start, states, steps, s)
    ensures var body, outer := Writers(s.attempts, false), Writers(s.attempts, true);
            RecordedTwice(s) == body * outer && Unrecorded(s) == s.attempts.Keys - (body + outer)
  {
    var body, outer := Writers(s.attempts, false), Writers(s.attempts, true);
    forall id | id in s.attempts
      ensures RecordsUnder(s.shared.log, id) == (if id in body then 1 else 0) + (if id in outer then 1 else 0)
    {
      RecordsAreLandedWrites(c, start, states, steps, s, id);
    }
  }

  lemma Inclusion(all: set<nat>, x: set<nat>, y: set<nat>)
    requires x <= all && y <= all
    ensures |x| + |y| + |all - (x + y)| == |all| + |x * y|
  {
    assert |all - (x + y)| == |all| - |x + y|;
    assert |x| + |y| == |x + y| + |x * y|;
  }

  lemma OneWhenNothingCut(c: Config, start: real, states: seq<System>, steps: seq<Step>, s: System, id: nat)
    requires Reached(c, start, states, steps, s) && id in s.attempts && NoWriteCut(steps) && s.attempts[id].pc.Finished?
    ensures RecordsUnder(s.shared.log, id) == 1
  {
    NothingCut(c, start, states, steps, s, id);
    OneRecordPerAttempt(c, start, states, steps, s, id);
  }

  /** It does happen: when a refused attempt has both its writes cut short, each
      line lands or not, and there are none, one or two records. */
  lemma CutWritesBreakTheCount(c: Config, id: nat, g: Shared, principal: string, tool: string, arguments: Arguments,
                               landed: bool, landedToo: bool)
      returns (moments: seq<(Shared, Attempt)>, actions: seq<Action>)
    requires !Rate.Admits(Law(c), g.levels, principal, g.now)
    ensures Path(c, id, moments, actions) && moments[0] == (g, NewAttempt(principal, tool, arguments))
    ensures actions == [CheckRate, InterruptWrite(Fault, landed), Unwind, InterruptWrite(Cancellation, landedToo)]
    ensures moments[4].1.pc == Finished(Raise(Cancellation))
            && RecordsUnder(moments[4].0.log, id)
               == RecordsUnder(g.log, id) + (if landed then 1 else 0) + (if landedToo then 1 else 0)
  {
    actions := [CheckRate, InterruptWrite(Fault, landed), Unwind, InterruptWrite(Cancellation, landedToo)];
    var m0 := (g, NewAttempt(principal, tool, arguments));
    var m1 := RateStep(c, id, m0.0, m0.1);
    var m2 := Perform(c, id, m1.0, m1.1, actions[1]);
    var m3 := (m2.0, UnwindStep(m2.1));
    var m4 := Perform(c, id, m3.0, m3.1, actions[3]);
    moments := [m0, m1, m2, m3, m4];
    CutCounts(c, id, m1.0, m1.1, Fault, landed);
    CutCounts(c, id, m3.0, m3.1, Cancellation, landedToo);
  }

  lemma CutCounts(c: Config, id: nat, g: Shared, a: Attempt, cause: Cause, landed: bool)
    requires AtWrite(a.pc)
    ensures var g' := Perform(c, id, g, a, InterruptWrite(cause, landed)).0;
            RecordsUnder(g'.log, id) == RecordsUnder(g.log, id) + if landed then 1 else 0
  {
    if landed { assert (g.log + [RecordOf(id, a)])[..|g.log|] == g.log; }
  }

  // ----- What the records say -----

  /** Every record is about the request as it arrived, and its concurrency stage
      passed exactly when the upstream was called for it. Its stages fit its
      outcome unless the outer clause wrote it after a write of the body had been
      cut short. It tells truly whether the upstream was called unless the outer
      clause wrote it about an attempt that had a slot. Where no write is cut
      short, neither happens. */
  lemma RecordsTellTheTruth(c: Config, start: real, states: seq<System>, steps: seq<Step>, s: System, r: AuditRecord)
    requires Reached(c, start, states, steps, s) && r in s.shared.log
    ensures r.correlationId in s.attempts
            && var a := s.attempts[r.correlationId];
               && r.principal == a.principal && r.toolName == a.tool && r.arguments == Object(a.arguments)
               && (StageConsistent(r) <==> !ByOuterClause(r) || a.bodyWrite == None)
    ensures r.concurrencyResult == Passed <==> WasCalled(s.shared.calls, r.correlationId)
    ensures (r.upstreamAttempted <==> WasCalled(s.shared.calls, r.correlationId)) <==>
              !(ByOuterClause(r) && r.concurrencyResult == Passed)
    ensures NoWriteCut(steps) ==>
              StageConsistent(r) && (r.upstreamAttempted <==> WasCalled(s.shared.calls, r.correlationId))
  {
    assert LogLinked(s) && CallsLinked(s) by { Reachable(c, start, states, steps, |steps|); }
    var i :| 0 <= i < |s.shared.log| && s.shared.log[i] == r;
    var id := r.correlationId;
    assert Logged(r, s.attempts[id]);
    CalledIffPassed(s, id);
    if NoWriteCut(steps) && ByOuterClause(r) {
      NothingCut(c, start, states, steps, s, id);
      OuterWritesAlone(c, start, states, steps, s, id);
    }
  }

  /** Where both writes returned there was only one. */
  lemma OuterWritesAlone(c: Config, start: real, states: seq<System>, steps: seq<Step>, s: System, id: nat)
    requires Reached(c, start, states, steps, s) && id in s.attempts && s.attempts[id].outerWrite.Some?
    ensures s.attempts[id].bodyWrite != Some(Completed)
  {
    LocalInRuns(c, start, states, steps, s, id);
  }

  lemma CalledIffPassed(s: System, id: nat)
    requires CallsLinked(s) && id in s.attempts
    ensures s.attempts[id].concurrency == Passed <==> WasCalled(s.shared.calls, id)
  {
    if WasCalled(s.shared.calls, id) {
      var j :| 0 <= j < |s.shared.calls| && s.shared.calls[j].id == id;
      assert Forwarded(s.shared.calls[j], s.attempts[id]);
    }
  }

  lemma RecordedAttempt(c: Config, start: real, states: seq<System>, steps: seq<Step>, s: System, r: AuditRecord)
      returns (a: Attempt)
    requires Reached(c, start, states, steps, s) && r in s.shared.log
    ensures r.correlationId in s.attempts && a == s.attempts[r.correlationId]
    ensures SameStages(r, a) && StageFacts(c, a)
  {
    assert LogLinked(s) && AllLocal(c, s) by { Reachable(c, start, states, steps, |steps|); }
    var i :| 0 <= i < |s.shared.log| && s.shared.log[i] == r;
    a := s.attempts[r.correlationId];
    assert Logged(s.shared.log[i], a);
    assert LocalOk(c, r.correlationId, a);
  }

  // ----- What the caller gets -----

  lemma {:induction false} SomeRecordBy(log: seq<AuditRecord>, id: nat, outer: bool) returns (i: nat)
    requires RecordsBy(log, id, outer) > 0
    ensures i < |log| && Marks(log[i], id, outer)
  {
    i := |log| - 1;
    if !Marks(log[i], id, outer) { i := SomeRecordBy(log[..i], id, outer); }
  }

  /** A caller that gets a result has exactly one record, which tells the same
      story; the result is the upstream's own reply to this very call if there was
      one, and the gateway's error otherwise, and carries the attempt's id. A
      raised exception tells the same story as a record whose write returned. */
  lemma CallerGetsItsOwnReply(c: Config, start: real, states: seq<System>, steps: seq<Step>, s: System, id: nat)
    requires Reached(c, start, states, steps, s) && id in s.attempts && s.attempts[id].pc.Finished?
    ensures var exit := s.attempts[id].pc.exit;
            exit.Return? ==>
              && RecordsUnder(s.shared.log, id) == 1
              && Stamped(exit.result, id)
              && if id in s.shared.replies then exit.result == Finalize(s.shared.replies[id], id)
                 else exit.result.isError && !exit.result.body.FromUpstream?
    ensures s.attempts[id].auditEmitted ==>
              exists i :: 0 <= i < |s.shared.log| && s.shared.log[i].correlationId == id
                          && ExitFits(s.shared.log[i], s.attempts[id].result, s.attempts[id].pc.exit)
  {
    var a := s.attempts[id];
    FinishedAttempt(c, start, states, steps, s, id);
    RecordsAreLandedWrites(c, start, states, steps, s, id);
    if a.auditEmitted {
      var i := FittingRecord(c, start, states, steps, s, id);
    }
  }

  lemma FinishedAttempt(c: Config, start: real, states: seq<System>, steps: seq<Step>, s: System, id: nat)
    requires Reached(c, start, states, steps, s) && id in s.attempts && s.attempts[id].pc.Finished?
    ensures var a := s.attempts[id];
            && (a.auditEmitted <==> a.bodyWrite == Some(Completed) || a.outerWrite == Some(Completed))
            && (a.pc.exit.Return? ==> a.bodyWrite == Some(Completed) && a.outerWrite == None)
            && a.result == if id in s.shared.replies then Some(s.shared.replies[id]) else None
  {
    assert RepliesLinked(s) by { Reachable(c, start, states, steps, |steps|); }
    LocalInRuns(c, start, states, steps, s, id);
  }

  lemma FittingRecord(c: Config, start: real, states: seq<System>, steps: seq<Step>, s: System,
                      id: nat) returns (i: nat)
    requires Reached(c, start, states, steps, s) && id in s.attempts && s.attempts[id].pc.Finished?
    requires s.attempts[id].bodyWrite == Some(Completed) || s.attempts[id].outerWrite == Some(Completed)
    ensures i < |s.shared.log| && s.shared.log[i].correlationId == id
            && ExitFits(s.shared.log[i], s.attempts[id].result, s.attempts[id].pc.exit)
  {
    assert LogLinked(s) by { Reachable(c, start, states, steps, |steps|); }
    var outer := s.attempts[id].outerWrite == Some(Completed);
    i := LoggedRecord(s, id, outer);
    LoggedFits(s.shared.log[i], s.attempts[id], outer);
  }

  lemma LoggedRecord(s: System, id: nat, outer: bool) returns (i: nat)
    requires LogLinked(s) && id in s.attempts && Landed(EndOf(s.attempts[id], outer))
    ensures i < |s.shared.log| && Marks(s.shared.log[i], id, outer) && Logged(s.shared.log[i], s.attempts[id])
  {
    assert RecordsBy(s.shared.log, id, outer) == 1;
    i := SomeRecordBy(s.shared.log, id, outer);
  }

  lemma LoggedFits(r: AuditRecord, a: Attempt, outer: bool)
    requires Logged(r, a) && ByOuterClause(r) == outer && EndOf(a, outer) == Some(Completed) && a.pc.Finished?
    ensures ExitFits(r, a.result, a.pc.exit)
  {
  }
}
