/** What holds of the pipeline over whole runs, whatever the interleaving and
    whatever mix of success, timeout, error, rejection and cancellation. */
module PipelineTheorems {
  import opened Wrappers
  import opened Json
  import opened ArgumentPolicy
  import opened AuditLog
  import opened ToolCache
  import opened Pipeline
  import opened PipelineInvariants
  import Rate = RateLimiter
  import Slot = ConcurrencyLimiter

  /** `s` is the last state of a run. */
  ghost predicate Reached(c: Config, start: real, states: seq<System>, steps: seq<Step>, s: System) {
    ValidConfig(c) && Pipeline.Run(c, start, states, steps) && s == states[|steps|]
  }

  // ----- Concurrency -----

  /** The principal's calls the gateway has in flight. */
  ghost function InFlight(s: System, p: string): set<nat> {
    set id | id in s.attempts && s.attempts[id].principal == p && s.attempts[id].pc == Calling
  }

  ghost predicate Running(a: Attempt) { !a.pc.Arrived? && !a.pc.Finished? }

  lemma HoldersRun(c: Config, s: System, p: string)
    requires AllLocal(c, s)
    ensures InFlight(s, p) <= Holders(s.attempts, p)
    ensures forall id :: id in Holders(s.attempts, p) ==> Running(s.attempts[id])
  {
    forall id | id in s.attempts ensures id in InFlight(s, p) ==> id in Holders(s.attempts, p) {
      assert LocalOk(c, id, s.attempts[id]);
    }
    forall id | id in Holders(s.attempts, p) ensures Running(s.attempts[id]) {
      assert LocalOk(c, id, s.attempts[id]);
    }
  }

  /** The active count is the number of slots held; it bounds the calls in flight,
      never passes the ceiling, and is back to zero when nothing runs. */
  lemma ActiveCountsTheSlots(c: Config, start: real, states: seq<System>, steps: seq<Step>, s: System, p: string)
    requires Reached(c, start, states, steps, s)
    ensures Slot.ActiveOf(s.shared.slots, p) == |Holders(s.attempts, p)|
    ensures |InFlight(s, p)| <= Slot.ActiveOf(s.shared.slots, p) <= c.maxConcurrent
    ensures (forall id :: id in s.attempts && s.attempts[id].principal == p ==> !Running(s.attempts[id])) ==>
              Slot.ActiveOf(s.shared.slots, p) == 0
  {
    Reachable(c, start, states, steps, |steps|);
    HoldersRun(c, s, p);
    SubsetIsNoLarger(InFlight(s, p), Holders(s.attempts, p));
    if forall id :: id in s.attempts && s.attempts[id].principal == p ==> !Running(s.attempts[id]) {
      assert Holders(s.attempts, p) == {};
    }
  }

  lemma {:induction false} SubsetIsNoLarger<T>(small: set<T>, large: set<T>)
    requires small <= large
    ensures |small| <= |large|
  {
    if small != {} {
      var x :| x in small;
      SubsetIsNoLarger(small - {x}, large - {x});
    }
  }

  /** The floor in `release` never fires: a slot about to be released is counted. */
  lemma ReleaseNeverHitsTheFloor(c: Config, start: real, states: seq<System>, steps: seq<Step>, s: System, id: nat)
    requires Reached(c, start, states, steps, s)
    requires id in s.attempts && s.attempts[id].pc.LeavingScope? && s.attempts[id].slotHeld
    ensures var p := s.attempts[id].principal;
            Slot.ActiveOf(Slot.Released(s.shared.slots, p), p) == Slot.ActiveOf(s.shared.slots, p) - 1
  {
    Reachable(c, start, states, steps, |steps|);
    var p := s.attempts[id].principal;
    assert id in Holders(s.attempts, p);
    assert Slot.ActiveOf(s.shared.slots, p) == |Holders(s.attempts, p)| >= 1;
  }

  /** Each step leaves the peak at the larger of the old peak and the new count. */
  lemma OneStepMovesThePeak(c: Config, s: System, step: Step, p: string)
    requires Possible(s, step) && forall q :: 0 <= Slot.ActiveOf(s.shared.slots, q) <= Slot.PeakOf(s.shared.slots, q)
    ensures var t := Apply(c, s, step);
            var peak, active := Slot.PeakOf(s.shared.slots, p), Slot.ActiveOf(t.shared.slots, p);
            Slot.PeakOf(t.shared.slots, p) == if active > peak then active else peak
  {
    if !(step.Act? && (step.action == AcquireSlot || step.action == LeaveScope)) {
      SlotsOnlyMoveAtTheScope(c, s, step);
    }
  }

  lemma SlotsOnlyMoveAtTheScope(c: Config, s: System, step: Step)
    requires Possible(s, step)
    requires !(step.Act? && (step.action == AcquireSlot || step.action == LeaveScope))
    ensures Apply(c, s, step).shared.slots == s.shared.slots
  {
  }

  ghost function ActiveAt(states: seq<System>, i: nat, p: string): int
    requires i < |states|
  {
    Slot.ActiveOf(states[i].shared.slots, p)
  }

  ghost function PeakAt(states: seq<System>, i: nat, p: string): int
    requires i < |states|
  {
    Slot.PeakOf(states[i].shared.slots, p)
  }

  lemma PeakFollowsActive(c: Config, start: real, states: seq<System>, steps: seq<Step>, n: nat, p: string)
    requires ValidConfig(c) && Pipeline.Run(c, start, states, steps) && n < |steps|
    ensures PeakAt(states, n + 1, p)
            == if ActiveAt(states, n + 1, p) > PeakAt(states, n, p) then ActiveAt(states, n + 1, p)
               else PeakAt(states, n, p)
  {
    assert SlotsLinked(c, states[n]) by { Reachable(c, start, states, steps, n); }
    OneStepMovesThePeak(c, states[n], steps[n], p);
  }

  lemma {:induction false} RunningMaximum(active: seq<int>, peak: seq<int>, n: nat)
    requires n < |active| == |peak| && active[0] == peak[0]
    requires forall i :: 0 < i < |active| ==> peak[i] == if active[i] > peak[i - 1] then active[i] else peak[i - 1]
    ensures forall i :: 0 <= i <= n ==> active[i] <= peak[n]
    ensures exists i :: 0 <= i <= n && active[i] == peak[n]
  {
    if n > 0 {
      RunningMaximum(active, peak, n - 1);
      var i :| 0 <= i <= n - 1 && active[i] == peak[n - 1];
      assert active[i] == peak[n] || active[n] == peak[n];
    }
  }

  /** The peak is the running maximum of the active count: reached at some moment
      of the run, and never exceeded before or since. */
  lemma PeakIsRunningMaximum(c: Config, start: real, states: seq<System>, steps: seq<Step>, n: nat, p: string)
    requires ValidConfig(c) && Pipeline.Run(c, start, states, steps) && n < |states|
    ensures forall i :: 0 <= i <= n ==> ActiveAt(states, i, p) <= PeakAt(states, n, p)
    ensures exists i :: 0 <= i <= n && ActiveAt(states, i, p) == PeakAt(states, n, p)
  {
    var active := seq(|states|, i requires 0 <= i < |states| => ActiveAt(states, i, p));
    var peak := seq(|states|, i requires 0 <= i < |states| => PeakAt(states, i, p));
    forall i | 0 < i < |states| ensures peak[i] == if active[i] > peak[i - 1] then active[i] else peak[i - 1] {
      PeakFollowsActive(c, start, states, steps, i - 1, p);
    }
    RunningMaximum(active, peak, n);
    var i :| 0 <= i <= n && active[i] == peak[n];
    assert ActiveAt(states, i, p) == PeakAt(states, n, p);
    forall k | 0 <= k <= n ensures ActiveAt(states, k, p) <= PeakAt(states, n, p) {
      assert active[k] <= peak[n];
    }
  }

  // ----- Forwarding -----

  /** `call` passed every stage, on the very name and arguments it carries. */
  ghost predicate Cleared(c: Config, s: System, call: UpstreamCall) {
    && call.id in Rate.GrantedIds(Law(c), s.shared.rateLog, 0, |s.shared.rateLog|, call.principal)
    && call.principal in c.policy.principals && call.tool in c.policy.principals[call.principal]
    && var entry := c.policy.principals[call.principal][call.tool];
    && entry.effect == Allow && Accepts(entry, call.arguments, c.fullmatch)
    && exists tools: seq<Tool> ::
         && Served(Call(call.id), tools) in s.shared.cache.history
         && FindTool(tools, call.tool).Some?
         && SchemaPasses(c, FindTool(tools, call.tool).value.inputSchema, call.arguments)
  }

  /** There is no schema, or the arguments are valid under it. */
  ghost predicate SchemaPasses(c: Config, schema: Option<Json>, arguments: Arguments) {
    schema.Some? ==> c.schemaOk(schema.value, arguments)
  }

  lemma PassedEveryStage(c: Config, a: Attempt)
    requires StageFacts(c, a) && a.concurrency == Passed
    ensures a.rate == Passed && Authorized(c, a) && ToolFound(a) && SchemaAccepts(c, a.upstreamTool.value, a.arguments)
    ensures Accepts(a.toolPolicy.value, a.arguments, c.fullmatch)
  {
  }

  lemma CalledWereCleared(c: Config, start: real, states: seq<System>, steps: seq<Step>, s: System, i: nat)
    requires Reached(c, start, states, steps, s) && i < |s.shared.calls|
    ensures Cleared(c, s, s.shared.calls[i])
  {
    assert CallsLinked(s) by { Reachable(c, start, states, steps, |steps|); }
    var call := s.shared.calls[i];
    var a := s.attempts[call.id];
    assert Forwarded(call, a) && StageFacts(c, a) && RateLinked(c, start, s) && ServedLinked(s) by {
      Reachable(c, start, states, steps, |steps|);
      assert LocalOk(c, call.id, a);
    }
    PassedEveryStage(c, a);
    ResolvesToTheEntry(c.policy, a.principal, a.tool);
    assert Served(Call(call.id), a.upstreamTools.value) in s.shared.cache.history;
  }

  /** Nothing is ever forwarded that was not cleared, and nothing twice. A call
      still in flight holds a slot. */
  lemma ForwardedOnlyWhenCleared(c: Config, start: real, states: seq<System>, steps: seq<Step>, s: System)
    requires Reached(c, start, states, steps, s)
    ensures forall i :: 0 <= i < |s.shared.calls| ==> Cleared(c, s, s.shared.calls[i])
    ensures forall i, j :: 0 <= i < j < |s.shared.calls| ==> s.shared.calls[i].id != s.shared.calls[j].id
    ensures forall id :: id in s.attempts && s.attempts[id].pc == Calling ==>
              s.attempts[id].slotHeld && WasCalled(s.shared.calls, id)
  {
    forall i | 0 <= i < |s.shared.calls| ensures Cleared(c, s, s.shared.calls[i]) {
      CalledWereCleared(c, start, states, steps, s, i);
    }
    assert AllLocal(c, s) && CallsLinked(s) by { Reachable(c, start, states, steps, |steps|); }
    forall id | id in s.attempts && s.attempts[id].pc == Calling
      ensures s.attempts[id].slotHeld && WasCalled(s.shared.calls, id)
    {
      assert PcFits(c, id, s.attempts[id]);
    }
  }

  // ----- Rate -----

  ghost function CallsBy(calls: seq<UpstreamCall>, p: string): nat {
    if calls == [] then 0
    else CallsBy(calls[..|calls| - 1], p) + if calls[|calls| - 1].principal == p then 1 else 0
  }

  lemma {:induction false} CallsInject(calls: seq<UpstreamCall>, p: string, ids: set<nat>)
    requires forall i, j :: 0 <= i < j < |calls| ==> calls[i].id != calls[j].id
    requires forall i :: 0 <= i < |calls| && calls[i].principal == p ==> calls[i].id in ids
    ensures CallsBy(calls, p) <= |ids|
  {
    if calls != [] {
      var last := calls[|calls| - 1];
      CallsInject(calls[..|calls| - 1], p, if last.principal == p then ids - {last.id} else ids);
    }
  }

  lemma EarnedSince(capacity: real, refillRate: real, start: real, now: real, count: nat)
    requires refillRate > 0.0
    requires count as real <= capacity + (TokenBucket.ConstantRate(capacity, refillRate).earned(now)
                                          - TokenBucket.ConstantRate(capacity, refillRate).earned(start))
    ensures count as real <= capacity + refillRate * (now - start)
  {
    assert refillRate * (now - start) == refillRate * now - refillRate * start;
  }

  lemma GrantsSinceStart(c: Config, start: real, s: System, p: string)
    requires ValidConfig(c) && RateLinked(c, start, s)
    ensures |Rate.GrantedIds(Law(c), s.shared.rateLog, 0, |s.shared.rateLog|, p)| as real
            <= c.capacity + (Law(c).earned(s.shared.now) - Law(c).earned(start))
  {
    var law, events := Law(c), s.shared.rateLog;
    TokenBucket.ConstantRateIsValid(c.capacity, c.refillRate);
    assert law.earned(start) <= law.earned(s.shared.now);
    if events != [] {
      Rate.GrantsInWindow(law, start, events, 0, |events|, p);
      Rate.NoMoreIdsThanGrants(law, events, 0, |events|, p);
      assert law.earned(start) <= law.earned(events[0].time);
      assert law.earned(events[|events| - 1].time) <= law.earned(s.shared.now);
    }
  }

  /** Whoever is called was granted a token. */
  lemma CalledWereGranted(c: Config, start: real, s: System, i: nat)
    requires AllLocal(c, s) && CallsLinked(s) && RateLinked(c, start, s) && i < |s.shared.calls|
    ensures var call := s.shared.calls[i];
            call.id in Rate.GrantedIds(Law(c), s.shared.rateLog, 0, |s.shared.rateLog|, call.principal)
  {
    var a := s.attempts[s.shared.calls[i].id];
    assert Forwarded(s.shared.calls[i], a) && StageFacts(c, a);
    assert a.rate == Passed;
  }

  lemma CallsWithinGrants(c: Config, start: real, s: System, p: string)
    requires AllLocal(c, s) && CallsLinked(s) && RateLinked(c, start, s)
    ensures CallsBy(s.shared.calls, p) <= |Rate.GrantedIds(Law(c), s.shared.rateLog, 0, |s.shared.rateLog|, p)|
  {
    var granted := Rate.GrantedIds(Law(c), s.shared.rateLog, 0, |s.shared.rateLog|, p);
    forall i | 0 <= i < |s.shared.calls| && s.shared.calls[i].principal == p ensures s.shared.calls[i].id in granted {
      CalledWereGranted(c, start, s, i);
    }
    CallsInject(s.shared.calls, p, granted);
  }

  lemma CallsWithinEarned(c: Config, start: real, s: System, p: string)
    requires ValidConfig(c) && AllLocal(c, s) && CallsLinked(s) && RateLinked(c, start, s)
    ensures CallsBy(s.shared.calls, p) as real <= c.capacity + (Law(c).earned(s.shared.now) - Law(c).earned(start))
  {
    CallsWithinGrants(c, start, s, p);
    GrantsSinceStart(c, start, s, p);
  }

  /** End to end: however long attempts wait in later stages and however many are
      denied, a principal's forwarded calls stay within one capacity plus refill. */
  lemma ForwardedCallsAreRateBound(c: Config, start: real, states: seq<System>, steps: seq<Step>, s: System, p: string)
    requires Reached(c, start, states, steps, s)
    ensures CallsBy(s.shared.calls, p) as real <= c.capacity + c.refillRate * (s.shared.now - start)
  {
    assert CallsBy(s.shared.calls, p) as real <= c.capacity + (Law(c).earned(s.shared.now) - Law(c).earned(start)) by {
      Reachable(c, start, states, steps, |steps|);
      CallsWithinEarned(c, start, s, p);
    }
    EarnedSince(c.capacity, c.refillRate, start, s.shared.now, CallsBy(s.shared.calls, p));
  }

  // ----- Cache -----

  /** Among attempts and listings together at most one fetch is under way, every
      list handed out was the latest, and fetches are bounded. */
  lemma OneFetchAtATime(c: Config, start: real, states: seq<System>, steps: seq<Step>, s: System)
    requires Reached(c, start, states, steps, s)
    ensures forall id, id' ::
              id in s.attempts && id' in s.attempts && s.attempts[id].pc == s.attempts[id'].pc == Fetching ==> id == id'
    ensures ServedAreLatest(s.shared.cache.history)
    ensures var t := Tallied(s.shared.cache.history);
            && 0 <= t.started - t.succeeded - t.failed <= 1
            && t.succeeded <= 1 + t.invalidations && t.started <= 1 + t.invalidations + t.failed
  {
    Reachable(c, start, states, steps, |steps|);
  }
}
