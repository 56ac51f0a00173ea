/** How attempts come to an end: each takes few steps, none waits but for the
    cache lock, and every run can be brought to a state where all is settled. */
module PipelineProgress {
  import opened Wrappers
  import opened ToolCache
  import opened Pipeline
  import opened PipelineInvariants
  import opened PipelineTheorems
  import opened PipelineAudit
  import Slot = ConcurrencyLimiter

  // ----- Attempts are short -----

  /** The most steps an attempt may still take. */
  ghost function StepsLeft(a: Attempt): nat {
    match a.pc
    case Arrived => 12
    case Authorizing => 11
    case CacheWait => 10
    case Fetching => 9
    case Checking => 8
    case Evaluating => 7
    case Acquiring => 6
    case Calling => 5
    case Emitting(_, _, _, _) => 4
    case LeavingScope(_) => if a.auditEmitted then 2 else 3
    case Unwinding(_) => if a.auditEmitted then 1 else 2
    case Recording(_) => 1
    case Finished(_) => 0
  }

  lemma SchemaStepCounts(c: Config, id: nat, a: Attempt)
    requires a.upstreamTools.Some?
    ensures StepsLeft(SchemaStep(c, id, a)) <= 7
  {
  }

  lemma PolicyStepCounts(c: Config, id: nat, a: Attempt)
    requires a.toolPolicy.Some?
    ensures StepsLeft(PolicyStep(c, id, a)) <= 6
  {
  }

  lemma RateStepCounts(c: Config, id: nat, g: Shared, a: Attempt)
    ensures StepsLeft(RateStep(c, id, g, a).1) <= 11
  {
  }

  lemma AuthorizeStepCounts(c: Config, id: nat, a: Attempt)
    ensures StepsLeft(AuthorizeStep(c, id, a)) <= 10
  {
  }

  lemma SlotStepCounts(c: Config, id: nat, g: Shared, a: Attempt)
    ensures StepsLeft(SlotStep(c, id, g, a).1) <= 5
  {
  }

  lemma StageStepCounts(c: Config, id: nat, g: Shared, a: Attempt, action: Action)
    requires Can(id, g, a, action) && !AtUpstream(action) && !AtCache(action)
    ensures StepsLeft(Perform(c, id, g, a, action).1) < StepsLeft(a)
  {
    match action
    case CheckRate => RateStepCounts(c, id, g, a);
    case Authorize => AuthorizeStepCounts(c, id, a);
    case CheckSchema => SchemaStepCounts(c, id, a);
    case EvaluatePolicy => PolicyStepCounts(c, id, a);
    case AcquireSlot => SlotStepCounts(c, id, g, a);
    case Crash =>
  }

  lemma CacheStepCounts(c: Config, id: nat, g: Shared, a: Attempt, action: Action)
    requires Can(id, g, a, action) && AtCache(action)
    ensures StepsLeft(Perform(c, id, g, a, action).1) < StepsLeft(a)
  {
    match action
    case EnterCache =>
      if g.cache.tools.Some? {
      } else {
      }
    case FetchReturn(_) =>
    case FetchFail =>
    case Cancel =>
  }

  lemma WriteCounts(a: Attempt, cause: Cause, landed: bool)
    requires AtWrite(a.pc)
    ensures StepsLeft(WrittenStep(a)) < StepsLeft(a) && StepsLeft(InterruptedStep(a, cause, landed)) < StepsLeft(a)
  {
  }

  lemma UpstreamStepCounts(c: Config, id: nat, g: Shared, a: Attempt, action: Action)
    requires Can(id, g, a, action) && AtUpstream(action)
    ensures StepsLeft(Perform(c, id, g, a, action).1) < StepsLeft(a)
  {
    match action
    case Write => WriteCounts(a, Fault, false);
    case InterruptWrite(cause, landed) => WriteCounts(a, cause, landed);
    case _ =>
  }

  lemma EachStepCounts(c: Config, id: nat, g: Shared, a: Attempt, action: Action)
    requires Can(id, g, a, action)
    ensures StepsLeft(Perform(c, id, g, a, action).1) < StepsLeft(a)
  {
    if AtUpstream(action) { UpstreamStepCounts(c, id, g, a, action); }
    else if AtCache(action) { CacheStepCounts(c, id, g, a, action); }
    else { StageStepCounts(c, id, g, a, action); }
  }

  ghost function StepsTaken(steps: seq<Step>, id: nat): nat {
    if steps == [] then 0
    else StepsTaken(steps[..|steps| - 1], id)
         + if steps[|steps| - 1].Act? && steps[|steps| - 1].id == id then 1 else 0
  }

  /** Steps an attempt may still take, one that has not arrived included. */
  ghost function Budget(s: System, id: nat): nat { if id in s.attempts then StepsLeft(s.attempts[id]) else 12 }

  lemma StepSpendsBudget(c: Config, s: System, step: Step, id: nat)
    requires Possible(s, step)
    ensures Budget(Apply(c, s, step), id) + (if step.Act? && step.id == id then 1 else 0) <= Budget(s, id)
  {
    if step.Act? && step.id == id {
      EachStepCounts(c, id, s.shared, s.attempts[id], step.action);
    }
  }

  /** No attempt ever takes more than twelve steps of its own. */
  lemma {:induction false} AttemptsAreShort(c: Config, start: real, states: seq<System>, steps: seq<Step>, n: nat,
                                            id: nat)
    requires Pipeline.Run(c, start, states, steps) && n < |states|
    ensures StepsTaken(steps[..n], id) + Budget(states[n], id) <= 12
  {
    if n > 0 {
      AttemptsAreShort(c, start, states, steps, n - 1, id);
      assert states[n - 1 + 1] == Apply(c, states[n - 1], steps[n - 1]);
      assert steps[..n][..n - 1] == steps[..n - 1];
      StepSpendsBudget(c, states[n - 1], steps[n - 1], id);
    }
  }

  // ----- Who can move -----

  /** How the upstream answers a request for its tools, and a call. */
  datatype FetchReply = Lists(tools: seq<Tool>) | FetchRaises | FetchCancelled

  datatype CallReply = Replies(result: CallResult) | TimesOut | Raises | CallCancelled

  datatype Answers = Answers(fetch: FetchReply, call: CallReply)

  /** The one step that the place and the upstream's answers call for. */
  ghost function Response(pc: Pc, answers: Answers): Action
    requires !pc.Finished?
  {
    match pc
    case Arrived => CheckRate
    case Authorizing => Authorize
    case CacheWait => EnterCache
    case Fetching =>
      (match answers.fetch
       case Lists(tools) => FetchReturn(tools)
       case FetchRaises => FetchFail
       case FetchCancelled => Cancel)
    case Checking => CheckSchema
    case Evaluating => EvaluatePolicy
    case Acquiring => AcquireSlot
    case Calling =>
      (match answers.call
       case Replies(result) => UpstreamReturns(result)
       case TimesOut => UpstreamTimesOut
       case Raises => UpstreamFails
       case CallCancelled => Cancel)
    case Emitting(_, _, _, _) => Write
    case LeavingScope(_) => LeaveScope
    case Unwinding(_) => Unwind
    case Recording(_) => Write
  }

  /** The upstream's answers to each attempt, and to a `tools/list` request. */
  datatype Environment = Environment(answers: nat -> Answers, listing: FetchReply)

  /** Unless it waits for the cache lock, an attempt can move on by itself once the
      upstream has ended the fetch or the call it is waiting for. */
  lemma MovesUnlessItWaits(c: Config, s: System, id: nat, answers: Answers)
    requires HolderLinked(s) && id in s.attempts && PcFits(c, id, s.attempts[id]) && !s.attempts[id].pc.Finished?
    ensures Possible(s, Act(id, Response(s.attempts[id].pc, answers))) <==>
              !(s.attempts[id].pc == CacheWait && s.shared.cache.holder.Some?)
  {
  }

  ghost predicate AwaitsListing(s: System, id: nat)
    requires id in s.attempts
  {
    s.attempts[id].pc == CacheWait && s.shared.cache.holder.Some? && s.shared.cache.holder.value.Listing?
  }

  /** What gets `id` on: its own next step, or the end of the fetch it waits for. */
  ghost function Unblock(s: System, id: nat, env: Environment): Step
    requires id in s.attempts && !s.attempts[id].pc.Finished?
  {
    if s.attempts[id].pc == CacheWait && s.shared.cache.holder.Some? then
      match s.shared.cache.holder.value
      case Call(other) => Act(other, Response(Fetching, env.answers(other)))
      case Listing(_) =>
        CacheUse(if env.listing.Lists? then FetchReturns(s.shared.cache.holder.value, env.listing.tools)
                 else FetchEnds(s.shared.cache.holder.value))
    else Act(id, Response(s.attempts[id].pc, env.answers(id)))
  }

  lemma UnblockIsPossible(c: Config, s: System, id: nat, env: Environment)
    requires AllLocal(c, s) && HolderLinked(s) && id in s.attempts && !s.attempts[id].pc.Finished?
    ensures Possible(s, Unblock(s, id, env))
  {
    assert LocalOk(c, id, s.attempts[id]);
    MovesUnlessItWaits(c, s, id, env.answers(id));
  }

  ghost predicate NobodyMoves(s: System) {
    forall id, action :: action != Cancel ==> !Possible(s, Act(id, action))
  }

  lemma SomebodyMoves(c: Config, s: System, id: nat) returns (other: nat, action: Action)
    requires AllLocal(c, s) && HolderLinked(s)
    requires id in s.attempts && !s.attempts[id].pc.Finished? && !AwaitsListing(s, id)
    ensures action != Cancel && Possible(s, Act(other, action))
  {
    var failing := Environment(_ => Answers(FetchRaises, Raises), FetchRaises);
    UnblockIsPossible(c, s, id, failing);
    other, action := Unblock(s, id, failing).id, Unblock(s, id, failing).action;
  }

  lemma DoneCannotMove(s: System, id: nat, action: Action)
    requires id in s.attempts && action != Cancel && (s.attempts[id].pc.Finished? || AwaitsListing(s, id))
    ensures !Possible(s, Act(id, action))
  {
  }

  /** Nobody deadlocks: the attempts cannot move, cancellations aside, exactly when
      each has finished or waits for a listing's fetch to end. */
  lemma NobodyMovesExactlyWhenDone(c: Config, start: real, states: seq<System>, steps: seq<Step>, s: System)
    requires Reached(c, start, states, steps, s)
    ensures NobodyMoves(s) <==> forall id :: id in s.attempts ==> s.attempts[id].pc.Finished? || AwaitsListing(s, id)
  {
    assert AllLocal(c, s) && HolderLinked(s) by { Reachable(c, start, states, steps, |steps|); }
    if NobodyMoves(s) {
      forall id | id in s.attempts ensures s.attempts[id].pc.Finished? || AwaitsListing(s, id) {
        if !s.attempts[id].pc.Finished? && !AwaitsListing(s, id) {
          var other, action := SomebodyMoves(c, s, id);
          assert false;
        }
      }
    } else {
      var id, action :| action != Cancel && Possible(s, Act(id, action));
      if s.attempts[id].pc.Finished? || AwaitsListing(s, id) { DoneCannotMove(s, id, action); }
    }
  }

  ghost predicate ListingFetches(s: System) {
    s.shared.cache.holder.Some? && s.shared.cache.holder.value.Listing?
  }

  /** All attempts finished, no slot taken, and a record for each unless a write
      was cut short. */
  ghost predicate Settled(s: System, steps: seq<Step>) {
    && AllFinished(s) && (forall p :: Slot.ActiveOf(s.shared.slots, p) == 0)
    && (NoWriteCut(steps) ==> |s.shared.log| == |s.attempts|)
  }

  /** However a run went and whatever the upstream answered in it: once no attempt
      can move and no listing is fetching, all is settled. Since every attempt
      takes at most twelve steps, a run that keeps moving whoever can gets there. */
  lemma SettledWhenNobodyMoves(c: Config, start: real, states: seq<System>, steps: seq<Step>, s: System)
    requires Reached(c, start, states, steps, s) && NobodyMoves(s) && !ListingFetches(s)
    ensures Settled(s, steps)
  {
    NobodyMovesExactlyWhenDone(c, start, states, steps, s);
    FinishedMeansSettled(c, start, states, steps, s);
  }

  lemma FinishedMeansSettled(c: Config, start: real, states: seq<System>, steps: seq<Step>, s: System)
    requires Reached(c, start, states, steps, s) && AllFinished(s)
    ensures Settled(s, steps)
  {
    forall p ensures Slot.ActiveOf(s.shared.slots, p) == 0 {
      ActiveCountsTheSlots(c, start, states, steps, s, p);
    }
    AsManyRecordsAsAttempts(c, start, states, steps, s);
  }

  // ----- Every run can be brought to an end -----

  lemma OneMoreStep(c: Config, start: real, states: seq<System>, steps: seq<Step>, step: Step)
    requires Pipeline.Run(c, start, states, steps) && Possible(states[|steps|], step)
    ensures Pipeline.Run(c, start, states + [Apply(c, states[|steps|], step)], steps + [step])
  {
    var states', steps' := states + [Apply(c, states[|steps|], step)], steps + [step];
    forall i | 0 <= i < |steps'|
      ensures Possible(states'[i], steps'[i]) && states'[i + 1] == Apply(c, states'[i], steps'[i])
    {
      if i < |steps| { assert states'[i] == states[i] && states'[i + 1] == states[i + 1] && steps'[i] == steps[i]; }
    }
  }

  /** A path of one attempt continues any run of the machine: what it reaches is
      reached by acts of that attempt, so everything proved of runs holds. */
  lemma {:induction false} PathContinuesTheRun(c: Config, start: real, states: seq<System>, steps: seq<Step>, id: nat,
                                                  moments: seq<(Shared, Attempt)>, actions: seq<Action>, n: nat)
      returns (states': seq<System>, steps': seq<Step>)
    requires Pipeline.Run(c, start, states, steps) && Path(c, id, moments, actions) && n < |moments|
    requires var s := states[|steps|]; id in s.attempts && moments[0] == (s.shared, s.attempts[id])
    ensures Pipeline.Run(c, start, states', steps')
    ensures steps' == steps + seq(n, i requires 0 <= i < n => Act(id, actions[i]))
    ensures states'[|steps'|] == System(states[|steps|].attempts[id := moments[n].1], moments[n].0)
  {
    var s := states[|steps|];
    if n == 0 {
      assert s.attempts[id := s.attempts[id]] == s.attempts;
      return states, steps;
    }
    states', steps' := PathContinuesTheRun(c, start, states, steps, id, moments, actions, n - 1);
    var before, step := states'[|steps'|], Act(id, actions[n - 1]);
    assert moments[n - 1 + 1] == Perform(c, id, moments[n - 1].0, moments[n - 1].1, actions[n - 1]);
    assert Possible(before, step);
    assert before.attempts[id := moments[n].1] == s.attempts[id := moments[n].1];
    OneMoreStep(c, start, states', steps', step);
    states', steps' := states' + [Apply(c, before, step)], steps' + [step];
  }

  /** `t` has the attempts of `s`, and those that had finished are as they were. */
  ghost predicate FinishedStay(s: System, t: System) {
    && t.attempts.Keys == s.attempts.Keys
    && forall id :: id in s.attempts && s.attempts[id].pc.Finished? ==> t.attempts[id] == s.attempts[id]
  }

  /** Attempts take the steps that the upstream's answers call for; a listing's
      fetch ends as the upstream has it. */
  ghost predicate AsAnswered(s: System, step: Step, env: Environment) {
    match step
    case Act(id, action) =>
      id in s.attempts && !s.attempts[id].pc.Finished? && action == Response(s.attempts[id].pc, env.answers(id))
    case CacheUse(FetchReturns(user, tools)) => env.listing == Lists(tools)
    case CacheUse(FetchEnds(user)) => !env.listing.Lists?
    case _ => false
  }

  /** The run goes on, as the upstream answers. */
  ghost predicate Continues(states: seq<System>, steps: seq<Step>, states': seq<System>, steps': seq<Step>,
                            env: Environment)
  {
    && |states| == |steps| + 1 && |states'| == |steps'| + 1 && states <= states' && steps <= steps'
    && forall i :: |steps| <= i < |steps'| ==> AsAnswered(states'[i], steps'[i], env)
  }

  /** The attempt itself has moved on, or the lock has come free. */
  ghost predicate GetsOn(s: System, t: System, id: nat)
    requires id in s.attempts
  {
    && FinishedStay(s, t)
    && (|| StepsLeft(t.attempts[id]) < StepsLeft(s.attempts[id])
        || (t.attempts[id] == s.attempts[id] && s.shared.cache.holder.Some? && t.shared.cache.holder == None))
  }

  lemma UnblockGetsOn(c: Config, s: System, id: nat, env: Environment)
    requires AllLocal(c, s) && HolderLinked(s) && id in s.attempts && !s.attempts[id].pc.Finished?
    requires Possible(s, Unblock(s, id, env))
    ensures GetsOn(s, Apply(c, s, Unblock(s, id, env)), id) && AsAnswered(s, Unblock(s, id, env), env)
  {
    if s.attempts[id].pc == CacheWait && s.shared.cache.holder.Some? {
      var user := s.shared.cache.holder.value;
      if user.Call? { FetchEndFreesTheLock(c, s, user.id, env.answers(user.id)); }
    } else {
      OwnMoveGetsOn(c, s, id, Response(s.attempts[id].pc, env.answers(id)));
    }
  }

  lemma OwnMoveGetsOn(c: Config, s: System, id: nat, action: Action)
    requires Possible(s, Act(id, action)) && !s.attempts[id].pc.Finished?
    ensures GetsOn(s, Apply(c, s, Act(id, action)), id)
  {
    EachStepCounts(c, id, s.shared, s.attempts[id], action);
  }

  lemma FetchEndFreesTheLock(c: Config, s: System, id: nat, answers: Answers)
    requires id in s.attempts && s.attempts[id].pc == Fetching && Possible(s, Act(id, Response(Fetching, answers)))
    ensures var t := Apply(c, s, Act(id, Response(Fetching, answers)));
            && t.shared.cache.holder == None
            && id in t.attempts && t.attempts == s.attempts[id := t.attempts[id]]
  {
    var (g', a') := Perform(c, id, s.shared, s.attempts[id], Response(Fetching, answers));
    assert Apply(c, s, Act(id, Response(Fetching, answers))).attempts == s.attempts[id := a'];
  }

  lemma {:induction false} OneCanFinish(c: Config, start: real, states: seq<System>, steps: seq<Step>, id: nat,
                                        env: Environment)
      returns (states': seq<System>, steps': seq<Step>)
    requires ValidConfig(c) && Pipeline.Run(c, start, states, steps) && id in states[|steps|].attempts
    ensures Pipeline.Run(c, start, states', steps') && Continues(states, steps, states', steps', env)
    ensures FinishedStay(states[|steps|], states'[|steps'|]) && states'[|steps'|].attempts[id].pc.Finished?
    decreases StepsLeft(states[|steps|].attempts[id]), if states[|steps|].shared.cache.holder.Some? then 1 else 0
  {
    var s := states[|steps|];
    if s.attempts[id].pc.Finished? {
      return states, steps;
    }
    var step := NextUnblock(c, start, states, steps, id, env);
    var more, longer := states + [Apply(c, s, step)], steps + [step];
    states', steps' := OneCanFinish(c, start, more, longer, id, env);
    ContinuesOn(states, steps, Apply(c, s, step), step, states', steps', env);
  }

  lemma ContinuesOn(states: seq<System>, steps: seq<Step>, t: System, step: Step,
                    states': seq<System>, steps': seq<Step>, env: Environment)
    requires |states| == |steps| + 1 && AsAnswered(states[|steps|], step, env)
    requires Continues(states + [t], steps + [step], states', steps', env)
    ensures Continues(states, steps, states', steps', env)
  {
    assert states <= states + [t] && steps <= steps + [step];
    assert states'[|steps|] == (states + [t])[|steps|] && steps'[|steps|] == (steps + [step])[|steps|];
  }

  lemma NextUnblock(c: Config, start: real, states: seq<System>, steps: seq<Step>, id: nat, env: Environment)
      returns (step: Step)
    requires ValidConfig(c) && Pipeline.Run(c, start, states, steps)
    requires var s := states[|steps|]; id in s.attempts && !s.attempts[id].pc.Finished?
    ensures var s := states[|steps|];
            && Possible(s, step) && AsAnswered(s, step, env)
            && Pipeline.Run(c, start, states + [Apply(c, s, step)], steps + [step])
            && GetsOn(s, Apply(c, s, step), id)
  {
    var s := states[|steps|];
    step := Unblock(s, id, env);
    assert Possible(s, step) && AsAnswered(s, step, env) && GetsOn(s, Apply(c, s, step), id) by {
      assert AllLocal(c, s) && HolderLinked(s) by { Reachable(c, start, states, steps, |steps|); }
      UnblockIsPossible(c, s, id, env);
      UnblockGetsOn(c, s, id, env);
    }
    OneMoreStep(c, start, states, steps, step);
  }

  ghost function Unfinished(s: System): set<nat> { set id | id in s.attempts && !s.attempts[id].pc.Finished? }

  lemma {:induction false} AllCanFinish(c: Config, start: real, states: seq<System>, steps: seq<Step>, env: Environment)
      returns (states': seq<System>, steps': seq<Step>)
    requires ValidConfig(c) && Pipeline.Run(c, start, states, steps)
    ensures Pipeline.Run(c, start, states', steps') && Continues(states, steps, states', steps', env)
    ensures FinishedStay(states[|steps|], states'[|steps'|]) && AllFinished(states'[|steps'|])
    decreases |Unfinished(states[|steps|])|
  {
    var s := states[|steps|];
    if Unfinished(s) == {} {
      assert AllFinished(s) by {
        forall id | id in s.attempts ensures s.attempts[id].pc.Finished? { assert id !in Unfinished(s); }
      }
      return states, steps;
    }
    var id :| id in Unfinished(s);
    var more, longer := OneCanFinish(c, start, states, steps, id, env);
    Fewer(Unfinished(more[|longer|]), Unfinished(s), id);
    states', steps' := AllCanFinish(c, start, more, longer, env);
    ContinuesFurther(states, steps, more, longer, states', steps', env);
  }

  lemma ContinuesFurther(states: seq<System>, steps: seq<Step>, more: seq<System>, longer: seq<Step>,
                         states': seq<System>, steps': seq<Step>, env: Environment)
    requires Continues(states, steps, more, longer, env) && Continues(more, longer, states', steps', env)
    ensures Continues(states, steps, states', steps', env)
  {
    forall i | |steps| <= i < |steps'| ensures AsAnswered(states'[i], steps'[i], env) {
      if i < |longer| { assert states'[i] == more[i] && steps'[i] == longer[i]; }
    }
  }

  lemma Fewer(small: set<nat>, large: set<nat>, id: nat)
    requires small <= large && id in large && id !in small
    ensures |small| < |large|
  {
    SubsetIsNoLarger(small, large - {id});
  }

  lemma AnswersCutNothing(states: seq<System>, steps: seq<Step>, states': seq<System>, steps': seq<Step>,
                          env: Environment)
    requires Continues(states, steps, states', steps', env) && NoWriteCut(steps)
    ensures NoWriteCut(steps')
  {
    forall i | 0 <= i < |steps'| ensures !(steps'[i].Act? && steps'[i].action.InterruptWrite?) {
      if i < |steps| { assert steps'[i] == steps[i]; } else { assert AsAnswered(states'[i], steps'[i], env); }
    }
  }

  /** Whatever has happened, and whatever the upstream will answer, it only has to
      answer: then every attempt finishes, no slot stays taken, and, if no audit
      write had been cut short, there is one record for each. */
  lemma EveryRunCanFinish(c: Config, start: real, states: seq<System>, steps: seq<Step>, env: Environment)
      returns (states': seq<System>, steps': seq<Step>)
    requires ValidConfig(c) && Pipeline.Run(c, start, states, steps)
    ensures Pipeline.Run(c, start, states', steps') && Continues(states, steps, states', steps', env)
    ensures FinishedStay(states[|steps|], states'[|steps'|]) && Settled(states'[|steps'|], steps')
    ensures NoWriteCut(steps) ==> |states'[|steps'|].shared.log| == |states[|steps|].attempts|
  {
    states', steps' := AllCanFinish(c, start, states, steps, env);
    FinishedMeansSettled(c, start, states', steps', states'[|steps'|]);
    if NoWriteCut(steps) {
      AnswersCutNothing(states, steps, states', steps', env);
      assert |states'[|steps'|].attempts.Keys| == |states[|steps|].attempts.Keys|;
    }
  }
}
