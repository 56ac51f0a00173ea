# SentinelMCP: a model of the gateway, with proofs

SentinelMCP sits between MCP clients and one upstream MCP server. Every
`tools/call` passes a rate limit, tool authorization, the upstream's schema, an
argument policy and a concurrency ceiling before it is forwarded, and leaves one
audit record. This project models that pipeline and its parts in Dafny.

| file | what it models |
|---|---|
| `Json.dfy` | JSON values, Python's `==`, strict equality |
| `Text.dfy` | splitting and joining strings |
| `ArgumentPolicy.dfy` | `sentinelmcp/policy/engine.py` over the policy shapes |
| `Redaction.dfy` | sensitive names, redaction, the representation modes |
| `AuditLog.dfy` | audit records, the shared append-only file, the logger |
| `TokenBucket.dfy`, `RateLimiter.dfy` | the token bucket and its per-principal table |
| `ConcurrencyLimiter.dfy` | active and peak counts |
| `ToolCache.dfy` | the upstream tool-list cache and its lock |
| `Pipeline.dfy` | the `tools/call` pipeline as a machine of interleaved attempts |
| `PipelineInvariants.dfy` | what every step of that machine keeps |
| `PipelineTheorems.dfy` | what holds of whole runs: concurrency, forwarding, rate, cache |
| `PipelineAudit.dfy` | the audit trail over whole runs, audit writes cut short included |
| `PipelineProgress.dfy` | how attempts and runs come to an end |
| `Uninterrupted.dfy` | the pipeline as one function, which a call left alone refines |
| `Verdicts.dfy` | why attempts end as they do: each stage, slot, token and exception |
| `Denials.dfy` | discovery, and what a caller can tell about the policy |
| `Witnesses.dfy` | runs that show what the theorems allow |
| `Handler.dfy` | the handler in its own imperative form, tied to the machine |
| `Percentile.dfy` | the benchmark's percentile |
| `Wrappers.dfy`, `Arithmetic.dfy` | shared types and one fact about products |

## How the model is built

**The pipeline machine.** A state holds any number of attempts and what they
share: token levels, slots, the tool cache, the audit log, the calls the upstream
received, and a clock. Any attempt may take the next step. Step boundaries follow
the code: the bodies under the limiter locks contain no `await`, so each acquire,
release and consume is one step; the suspension points are the cache lock, the
fetch under it, the upstream call and the audit write. The environment decides
how fetches and calls end, when the cache is invalidated, when `tools/list`
requests use it, and which attempt is cancelled or hits an unexpected exception.

**Audit writes can be cut short.** `audit_emitted` is set only after the write
returns, so a write that is cancelled or fails leaves the flag down whether or not
its line reached the file. The machine's `InterruptWrite(cause, landed)` does just
that, at the body's write and at the one the outer exception clauses make. After
the first, the scope is left, the slot given back, and the outer clause writes a
record of its own; after the second, the exception leaves the handler.
`PipelineAudit.OneRecordPerAttempt` says for every finished attempt when it has none, one or two
records; with no write cut short it has exactly one.

**The function.** `Uninterrupted.EndingOf` is the whole pipeline as one nested
conditional: from the state a call finds and the upstream's answers to its exit, its
outcome and whether it was forwarded. `UninterruptedCall` proves that the machine
refines it.

**The handler.** `Handler.CallHandler` is the handler as the source writes it:
local variables updated stage by stage, early returns, an inner block that gives
its slot back, an outer clause that records interruptions, over real limiter,
cache, upstream and logger objects. It may follow the machine only by the one step
that its place and the upstream's answers call for, so its contract fixes the exit,
the record, what the upstream received and the slot counts. `PathContinuesTheRun`
makes what it does a run, so that everything proved of runs applies.

**Arithmetic.** Limits, clock and percentile are over exact reals. The bucket's
theory is stated for any nondecreasing law of earning tokens; the limiter's law,
a constant rate, is one instance.

## What the proofs found

- *Strict equality crosses type boundaries inside containers.* The engine's
  docstring and `docs/policy-semantics.md` say that `equals` and `in` never
  identify values of different JSON types. Only the outermost type is compared:
  `[True]` strictly equals `[1]`. `NeverCrossesTypesExactly` says for which
  configured values the promise holds.
- *`keys_only` is not a stricter `redacted`.* It shows the shape of values beneath
  sensitive names, which `redacted` hides.
- *One record per attempt depends on the writes.* A record is lost exactly when the
  outer clause's write is cut short without landing and the body left none; there
  are two exactly when the body's write was cut short after landing and the outer
  clause's lands too (`NoneOneOrTwoRecords`, from process start). The outer clause's
  record then contradicts its own stages, and says `upstream_attempted` false of a
  call that was made exactly if the attempt had its slot (`ARecordDeniesItsCall`,
  from process start). The record's concurrency stage is always right about the call.
- *A cancelled writer can tear a line of the audit file.* The lock is freed while its
  thread goes on. The file still splits into whole lines when nobody writes into a
  line that another has begun; `AbandonedWriterTearsALine` shows the other case.
- *Tightening a policy can accept more.* With unknown names denied, requiring or
  constraining one more name makes that name known. `TighteningNeverLoosens` gives
  the exact condition, `RequiringANameCanLoosen` and `ConstrainingANameCanLoosen` the
  two cases.
- *An explicit deny is not quite invisible.* Dropping it leaves every run as it was
  but for the audit records' `matched_rule`. It shows in exactly the records that say
  the policy failed that principal on that tool (`DenyShowsExactly`), and there are
  such runs (`DenyShowsInARecord`).
- *Denials look alike as long as the list is there.* With nothing cached and a
  failing fetch, a call without an allow rule is answered as an unknown tool, while
  an allowed call of a tool the upstream lacks raises (`FailingFetchTellsThemApart`).

## Model

| member | source | states |
|---|---|---|
| Json.PyEqualIsCanonicalIdentity | sentinelmcp/policy/engine.py:69-76 | Python's `==` on nested values holds exactly when the left side is NaN-free and both have the same canonical form, in which every number is a float |
| Json.StrictEqualReflexiveIffNaNFree | sentinelmcp/policy/engine.py:69-76 | a value strictly equals itself exactly when it holds no NaN at any depth |
| Json.StrictEqualSymmetric | sentinelmcp/policy/engine.py:69-76 | strict equality is symmetric on all values |
| Json.StrictEqualTransitive | sentinelmcp/policy/engine.py:69-76 | strict equality is transitive on all values |
| Json.StrictInRespectsStrictEqual | sentinelmcp/policy/engine.py:79-80 | membership gives one answer for strictly equal values and pointwise equal candidate lists |
| Json.NeverCrossesTypesExactly | sentinelmcp/policy/engine.py:69-76 | over the floats the machine has, a configured value equals only itself exactly when it holds NaN, is a scalar, or contains no number another JSON type also denotes |
| Json.NestedNumbersCrossTypes | sentinelmcp/policy/engine.py:69-76 | `[True]` strictly equals `[1]` although `True` does not strictly equal `1` |
| Json.NumbersCompareByValue | sentinelmcp/policy/engine.py:69-76 | Python numbers of any two types are equal exactly when their values are; infinities equal themselves only, NaN nothing |
| ArgumentPolicy.ResolvesToTheEntry | sentinelmcp/policy/engine.py:27-40 | a tool resolves to the configured entry, whole, exactly when there is one and its effect is allow |
| ArgumentPolicy.CheckConstraintFindsTheFirstUnmet | sentinelmcp/policy/engine.py:105-126 | no operator is reported exactly when every configured operator is met; otherwise the first unmet one in the code's order |
| ArgumentPolicy.MinAcceptsExactly | sentinelmcp/policy/engine.py:111-113 | `min` accepts exactly integers and floats that are not below it, no boolean, NaN on neither side |
| ArgumentPolicy.MaxAcceptsExactly | sentinelmcp/policy/engine.py:111-115 | `max` accepts exactly integers and floats that are not above it, no boolean, NaN on neither side |
| ArgumentPolicy.RangeAcceptsExactly | sentinelmcp/policy/engine.py:111-115 | a range accepts exactly the integers within it, and reports the bound that is broken |
| ArgumentPolicy.ResolvePath | sentinelmcp/policy/engine.py:83-96 | the loop over dotted segments computes the recursive look-up; missing keys and non-objects mean absent |
| ArgumentPolicy.LookupFindsTheWalk | sentinelmcp/policy/engine.py:83-96 | a path resolves to a value exactly when a chain of objects leads there, one field per segment |
| ArgumentPolicy.KnownTopLevelFields | sentinelmcp/policy/engine.py:99-102 | the grown set is the required and forbidden names and the first segments of constrained paths |
| ArgumentPolicy.EvaluateArgumentPolicy | sentinelmcp/policy/engine.py:129-158 | no violation exactly when the policy's order-free meaning accepts; a violation names a real defect with nothing broken before it |
| ArgumentPolicy.VerdictIgnoresOrder | sentinelmcp/policy/engine.py:129-158 | reordering or repeating required names, forbidden names and constraints never changes the verdict |
| ArgumentPolicy.TighteningNeverLoosens | sentinelmcp/policy/engine.py:129-158 | what a tighter policy accepts, the looser one accepts, except exactly when unknown names are denied and the arguments carry a name it did not know |
| ArgumentPolicy.StrengtheningNeverLoosens | sentinelmcp/policy/engine.py:129-158 | adding operators to constraints, adding names to `forbidden` or turning on the denial of unknown names never accepts anything new |
| ArgumentPolicy.RequiringANameCanLoosen | sentinelmcp/policy/engine.py:99-102 | adding a required name can accept an argument set that was rejected |
| ArgumentPolicy.ConstrainingANameCanLoosen | sentinelmcp/policy/engine.py:99-102 | constraining one more path, with whatever operators, can accept an argument set that was rejected |
| ArgumentPolicy.NonObjectParentSkipsTheRule | sentinelmcp/policy/engine.py:83-96 | a dotted path leads to nothing exactly when some parent on it is no object or lacks the next name; its rule then holds whatever it demands |
| Text.JoinOfSplit | sentinelmcp/policy/engine.py:92-95 | joining the segments of a path gives the path back, and no segment holds the separator |
| Text.BeforeIsFirstPart | sentinelmcp/policy/engine.py:101 | the one-cut split used for known names yields the first segment of the full split |
| Redaction.NormalizeConcatenation | sentinelmcp/telemetry/audit.py:64-67 | normalising distributes over concatenation |
| Redaction.NormalizeIdempotent | sentinelmcp/telemetry/audit.py:64-67 | normalising twice is normalising once |
| Redaction.NormalizeOneCharacter | sentinelmcp/telemetry/audit.py:64-67 | a capital becomes its small letter; `_` and `-` go |
| Redaction.NormalizedIsBare | sentinelmcp/telemetry/audit.py:64-67 | a normalised name has no capital, `_` or `-`, and a name without those is left alone |
| Redaction.NormalizeDecidesSpelling | sentinelmcp/telemetry/audit.py:64-67 | two names normalise alike exactly when they differ by letter case and separators only |
| Redaction.SensitivityIsStable | sentinelmcp/telemetry/audit.py:73-75 | a sensitive name stays sensitive in any spelling and inside any longer name |
| Redaction.SeparatorsDoNotMatter | sentinelmcp/telemetry/audit.py:64-75 | putting in or taking out `_` or `-` anywhere never changes sensitivity |
| Redaction.CaseDoesNotMatter | sentinelmcp/telemetry/audit.py:64-75 | capital or small, any letter of a name, never changes sensitivity |
| Redaction.SensitiveExactly | sentinelmcp/telemetry/audit.py:35-75 | a name is sensitive exactly when, normalised, it holds one of the six documented words |
| Redaction.ListedFragmentsAreCaught | sentinelmcp/telemetry/audit.py:35-75 | each of the six documented fragments is caught in any spelling and inside any name |
| Redaction.RedactKeepsTheVisible | sentinelmcp/telemetry/audit.py:78-88 | at every path not beneath a sensitive name the redacted value looks as the original: keys, lengths and leaves |
| Redaction.RedactHidesBeneath | sentinelmcp/telemetry/audit.py:78-88 | wherever an object shows a sensitive name, the placeholder stands beneath it |
| Redaction.RedactionNonInterference | sentinelmcp/telemetry/audit.py:78-88 | two values redact alike exactly when they agree at every path not beneath a sensitive name |
| Redaction.RedactIdempotent | sentinelmcp/telemetry/audit.py:78-88 | redacting twice is redacting once |
| Redaction.RedactIsIdentityExactly | sentinelmcp/telemetry/audit.py:78-88 | redaction leaves a value alone exactly when no visible object holds a real value under a sensitive name |
| Redaction.KeysOnlyRevealsExactlyTheShape | sentinelmcp/telemetry/audit.py:91-97 | two values have one keys-only form exactly when they have the same keys, list lengths and leaf places |
| Redaction.KeysOnlyIdempotent | sentinelmcp/telemetry/audit.py:91-97 | taking the keys-only form twice is taking it once |
| Redaction.KeysOnlyHoldsNoValue | sentinelmcp/telemetry/audit.py:91-97 | the keys-only form has the shape of the value and holds nothing but the two placeholders |
| Redaction.RepresentationKeepsItsPromise | sentinelmcp/telemetry/audit.py:100-121 | null; shape and placeholders; all but what lies beneath sensitive names, and the placeholder there; everything: mode by mode, and an error for any other mode |
| Redaction.ModeRevealsExactly | sentinelmcp/telemetry/audit.py:100-121 | what each representation mode lets a reader tell apart, exactly; an unknown mode is an error |
| Redaction.KeysOnlyShowsShapeBeneathSensitiveNames | sentinelmcp/telemetry/audit.py:78-97 | values of different shape under a sensitive name redact alike but differ in keys-only form |
| AuditLog.PayloadKeepsTheRest | sentinelmcp/telemetry/audit.py:172-176 | a payload is the record in every field but the arguments, and those are shown as the mode promises |
| AuditLog.RedactedPayloadRevealsExactly | sentinelmcp/telemetry/audit.py:172-176 | two records serialise to one payload in the default mode exactly when they differ at most beneath sensitive argument names |
| AuditLog.RedactedLogRevealsExactly | sentinelmcp/telemetry/audit.py:172-185 | the same for the lines of a whole log, under a lossless serialiser |
| AuditLog.FileSplitsIntoTheRecords | sentinelmcp/telemetry/audit.py:178-185 | whatever the interleaving of emitters, partial writes and cancelled writers, in a quiet file nothing of one writer stands inside another's line exactly when nobody wrote into an unfinished line; it then splits into the writers' lines, whole, in the order they began |
| AuditLog.FileSplitsInLockOrder | sentinelmcp/telemetry/audit.py:178-185 | where no writer is cancelled, no line is torn, and once the lock is free the file splits into exactly the finished emitters' lines in lock order |
| AuditLog.AbandonedWriterTearsALine | sentinelmcp/telemetry/audit.py:184-185 | a cancelled writer whose thread goes on can tear a line |
| AuditLog.AuditLogger.Emit | sentinelmcp/telemetry/audit.py:182-185 | one call appends one framed line of the record, its arguments shown as the mode promises and all else as it is, and the file still splits into the lines of all records |
| TokenBucket.Bucket.Create | sentinelmcp/gateway/limits.py:31-41 | a non-positive capacity or rate is an error; otherwise the bucket starts full |
| TokenBucket.Bucket.TryConsume | sentinelmcp/gateway/limits.py:43-53 | refill from elapsed time, then take the amount if it is there, leaving the new level and refill time |
| TokenBucket.Bucket.AvailableTokens | sentinelmcp/gateway/limits.py:55-60 | reports the refilled level and changes nothing |
| TokenBucket.LevelIsLeastAllowanceLeft | sentinelmcp/gateway/limits.py:43-53 | the level lies between zero and capacity and is exactly the least allowance left over all windows opened so far |
| TokenBucket.GrantedIffEveryWindowFits | sentinelmcp/gateway/limits.py:43-53 | a request is granted exactly when every window ending at it, its own amount included, stays within capacity plus refill |
| TokenBucket.GrantedExactlyWithinTheRate | sentinelmcp/gateway/limits.py:43-53 | in the limiter's own units, a request is granted exactly when the capacity is enough and every window ending at it is within capacity plus rate times length |
| TokenBucket.NoWindowOverspent | sentinelmcp/gateway/limits.py:43-53 | no window of requests is ever over-spent |
| TokenBucket.BucketStaysWithinItsRate | sentinelmcp/gateway/limits.py:43-53 | the bucket's own decisions spend at most capacity plus rate times length in every window |
| TokenBucket.BucketIsGreedyOptimum | sentinelmcp/gateway/limits.py:43-53 | at every prefix the bucket has admitted at least as many equal-cost requests as any sequence that over-spends no window |
| TokenBucket.GreedyNeedsEqualCosts | sentinelmcp/gateway/limits.py:43-53 | with unequal amounts the bucket can admit fewer requests than another respectful sequence |
| TokenBucket.RefillComposes | sentinelmcp/gateway/limits.py:46-49 | refilling at two moments in order is refilling once |
| TokenBucket.DenialsLeaveNoTrace | sentinelmcp/gateway/limits.py:43-53 | replaying only the granted requests gives the same level at every later moment |
| TokenBucket.WaitingIsRewarded | sentinelmcp/gateway/limits.py:43-53 | whoever lets one token be earned after the last request is granted one |
| RateLimiter.Limiter.TryAcquire | sentinelmcp/gateway/limits.py:80-90 | the decision and new levels of the whole table, the principal's bucket created full if missing, other principals untouched |
| RateLimiter.PrincipalSeesItsOwnBucket | sentinelmcp/gateway/limits.py:73-90 | under any interleaving a principal's level is that of its own bucket, created full at process start and given its requests only |
| RateLimiter.DecisionIsOwnBucketDecision | sentinelmcp/gateway/limits.py:88-90 | each decision is the one that own bucket would take |
| RateLimiter.GrantsInWindow | sentinelmcp/gateway/limits.py:88-90 | over any stretch of interleaved events the tokens handed to a principal number at most capacity plus what the clock earned |
| ConcurrencyLimiter.Limiter.TryAcquire | sentinelmcp/gateway/limits.py:113-122 | acquires exactly when below the ceiling; the active count goes up by one and the peak to the larger of the two |
| ConcurrencyLimiter.Limiter.Release | sentinelmcp/gateway/limits.py:124-129 | the active count goes down by one, not below zero; peaks and other principals stay |
| ConcurrencyLimiter.ReleaseUndoesAcquire | sentinelmcp/gateway/limits.py:113-129 | an acquire followed by its release restores every active count and leaves the peak reached |
| ToolCache.CacheAgreement | sentinelmcp/gateway/bridge.py:74-87 | at most one fetch in flight; every list served is the latest and not invalidated; successes at most one plus invalidations, starts at most that plus failures |
| ToolCache.InvalidationIsFinal | sentinelmcp/gateway/bridge.py:85-87 | whatever is served after an invalidation was fetched after it |
| ToolCache.StepsDoWhatTheySay | sentinelmcp/gateway/bridge.py:74-87 | an invalidation empties, a return caches, a failure changes nothing; who finds a list is served it, who finds none fetches |
| Handler.UpstreamToolCache.Get | sentinelmcp/gateway/bridge.py:78-83 | a cached list is returned and kept without asking; otherwise the upstream is asked once, and only a list it answers with is cached |
| Handler.UpstreamToolCache.Drop | sentinelmcp/gateway/bridge.py:85-87 | after an invalidation nothing is cached |
| Pipeline.FindToolFindsTheFirst | sentinelmcp/gateway/bridge.py:283 | the tool found is the one at the first place where that name is listed, and none is found exactly when there is no such place |
| Pipeline.FinalizeStampsAndKeepsTheRest | sentinelmcp/gateway/bridge.py:263-264 | the result carries this attempt's id even over a forged one; all other metadata, content and error flag are as the upstream sent them, nothing added |
| Denials.RunStaysBlind | sentinelmcp/policy/engine.py:27-40 | any run under a policy with an explicit deny is, up to matched rules of that principal and tool, a run by the same steps without it |
| Denials.DenyRuleActsAsNoRule | sentinelmcp/policy/engine.py:27-40 | any run without the deny comes, by the same steps, from a run with it, through the same states up to those matched rules |
| Denials.DenyShowsExactly | sentinelmcp/policy/engine.py:27-40 | a record tells the deny from no rule exactly if it says the policy failed that principal on that tool |
| Witnesses.DenyShowsInARecord | sentinelmcp/gateway/bridge.py:272-279 | under any policy that denies, some run from process start leaves such a record |
| Denials.DenyRuleListsTheSame | sentinelmcp/gateway/bridge.py:169-176 | without an explicit deny, discovery shows every principal the same tools |
| Denials.DenialsLookAlike | sentinelmcp/gateway/bridge.py:90-101 | a call whose tool is not allowed, or missing from the list served, ends as another call of that name exactly if the other is such a call too, whatever else differs in policy, state and upstream |
| Denials.FailingFetchTellsThemApart | sentinelmcp/gateway/bridge.py:276-289 | with nothing cached and a failing fetch, a call without an allow rule ends as an unknown tool and an allowed one raises |
| Denials.ListedIffAllowed | sentinelmcp/gateway/bridge.py:169-176 | discovery shows the allowed tools, each as often as the upstream lists it and in its order |
| Denials.DiscoverableIffNotUnknown | sentinelmcp/gateway/bridge.py:169-289 | a call ends as an unknown tool exactly when it gets a token and its tool is not allowed or missing from the list served; over a served list, exactly when discovery does not show the name |
| PipelineInvariants.Reachable | sentinelmcp/gateway/bridge.py:217-348 | every state of every run keeps the attempts, log, calls, replies, token levels, slots and cache in agreement |
| PipelineTheorems.ActiveCountsTheSlots | sentinelmcp/gateway/limits.py:113-150 | the active count is the number of slots held, bounds calls in flight, never passes the ceiling, and is zero when nothing of the principal runs |
| PipelineTheorems.ReleaseNeverHitsTheFloor | sentinelmcp/gateway/limits.py:124-129 | in every reachable state a slot about to be released is counted, so the floor at zero never acts |
| PipelineTheorems.PeakIsRunningMaximum | sentinelmcp/gateway/limits.py:119-121 | over any run the peak is the maximum the active count has had |
| PipelineAudit.OneRecordPerAttempt | sentinelmcp/gateway/bridge.py:220-348 | an attempt has as many records as audit writes of its that landed; a finished one has none, or two, exactly when the write of its body or outer clause was cut short in a certain way, and else one |
| PipelineAudit.NoRecordBeforeTheWrite | sentinelmcp/gateway/bridge.py:237-261 | until it ends a write, an attempt has no record |
| PipelineAudit.CallerGetsItsOwnReply | sentinelmcp/gateway/bridge.py:263-348 | a caller that gets a result gets the upstream's reply to its own call, or the gateway's error if there was none, under its own id, and has exactly one record; a write that returned agrees with the exit |
| PipelineAudit.AsManyRecordsAsAttempts | sentinelmcp/gateway/bridge.py:220-348 | in every state, records and attempts without one are as many as attempts and those with two; when all have finished and no write was cut short, there are as many records as attempts |
| PipelineAudit.CutWritesBreakTheCount | sentinelmcp/gateway/bridge.py:237-261 | a refused attempt whose two writes are both cut short leaves none, one or two records, as its lines land |
| Witnesses.NoneOneOrTwoRecords | sentinelmcp/gateway/bridge.py:237-261 | from process start, a run whose one attempt has none, one or two records, as the lines of its cut writes land |
| Witnesses.CutCallRecordDeniesTheCall | sentinelmcp/gateway/bridge.py:323-348 | any call in flight can end in a record, under its id, that says no call was attempted |
| Witnesses.ARecordDeniesItsCall | sentinelmcp/gateway/bridge.py:323-348 | from process start, a run with one call sent and one record, which denies it |
| PipelineAudit.RecordsTellTheTruth | sentinelmcp/gateway/bridge.py:228-348 | every record is about the request as it arrived and its concurrency stage is right about the upstream call; exactly when its stages fit its outcome, and exactly when it is right that the upstream was called |
| PipelineTheorems.ForwardedOnlyWhenCleared | sentinelmcp/gateway/bridge.py:267-322 | every call the upstream received had a token; the configured entry for that principal and tool allows and accepts those very arguments; a list served to it has the tool, and its schema, if any, is satisfied; none twice; calls in flight hold a slot |
| Verdicts.StagesAreDeserved | sentinelmcp/gateway/bridge.py:267-313 | every stage result on record is what the configured entry, the lists served and the arguments call for |
| Verdicts.AnswersAreDeserved | sentinelmcp/gateway/bridge.py:263-334 | each answer of the gateway is an error under the attempt's id that names the tool, and is given only for its own reason |
| Verdicts.MatchedRuleIsTheEntry | sentinelmcp/gateway/bridge.py:273-275 | a record past authorization names the matched rule exactly when the policy has an entry |
| Verdicts.SlotGrantedExactly | sentinelmcp/gateway/limits.py:113-122 | at each step that asks for one, a slot is given exactly when fewer than the ceiling are held for the principal, and refused exactly when the ceiling is |
| Verdicts.RefusedOnlyWhenFull | sentinelmcp/gateway/limits.py:113-122 | an attempt was refused a slot only at a step of the run at which exactly the ceiling was held |
| Verdicts.TokenGrantedExactly | sentinelmcp/gateway/limits.py:43-53 | at each step that asks for one, a token is granted exactly when every window of the principal's own uses that ends there is within the configured rate |
| Verdicts.ExceptionIsTheLastThrown | sentinelmcp/gateway/bridge.py:323-348 | an attempt raises exactly the last cancellation or exception thrown at it, and returns if nothing was |
| Witnesses.AnyWaiterCanBeCancelled | sentinelmcp/gateway/bridge.py:341-344 | an attempt that waits for the tool list can be cancelled: one record of it, no call, and the cancellation goes on |
| Witnesses.AnyStageCanCrash | sentinelmcp/gateway/bridge.py:345-348 | a stage before the slot can fail: one internal-error record, and the exception goes on |
| Witnesses.AnyCallCanBeCancelled | sentinelmcp/gateway/bridge.py:328-331 | a call in flight can be cancelled: recorded as a cancelled call, and the slot is free again |
| Witnesses.TokensComeBack | sentinelmcp/gateway/limits.py:43-53 | in any run, one token's worth of time later a new call of any principal gets past the limiter |
| Witnesses.InvalidationForcesAFetch | sentinelmcp/gateway/bridge.py:78-87 | whenever the cache lock is free the cache can be invalidated, and the next user fetches |
| PipelineTheorems.ForwardedCallsAreRateBound | sentinelmcp/gateway/bridge.py:267-322 | in any run the calls forwarded for a principal number at most capacity plus rate times the time since start |
| PipelineTheorems.OneFetchAtATime | sentinelmcp/gateway/bridge.py:74-87 | among all attempts at most one is fetching, every list served was the latest, and fetches are bounded |
| PipelineProgress.AttemptsAreShort | sentinelmcp/gateway/bridge.py:266-348 | no attempt takes more than twelve steps, however it ends |
| PipelineProgress.NobodyMovesExactlyWhenDone | sentinelmcp/gateway/bridge.py:74-87 | cancellations aside, the attempts cannot move exactly when each has finished or waits for a listing's fetch to end |
| PipelineProgress.SettledWhenNobodyMoves | sentinelmcp/gateway/bridge.py:266-348 | in any run, once no attempt can move and no listing is fetching, all attempts have finished, no slot is taken, and there are as many records as attempts if no write was cut short |
| PipelineProgress.EveryRunCanFinish | sentinelmcp/gateway/bridge.py:266-348 | any run goes on, with whatever answers the upstream gives to each attempt and listing, to such a settled state |
| Uninterrupted.UninterruptedCall | sentinelmcp/gateway/bridge.py:217-348 | a call left alone ends as one nested conditional over what it finds and what the upstream answers says: exit, one record with its outcome, forwarded once and unchanged or not at all, no slot left taken |
| Handler.CallHandler.constructor | sentinelmcp/gateway/bridge.py:220-235 | the initial local variables are those of an attempt that has just arrived |
| Handler.CallHandler.Emit | sentinelmcp/gateway/bridge.py:237-261 | the logger gets the record of the current local variables and the attempt is marked as recorded |
| Handler.CallHandler.TakeToken | sentinelmcp/gateway/bridge.py:267 | the shared limiter and the machine decide alike, and nothing but the token levels moves |
| Handler.CallHandler.SettleToken | sentinelmcp/gateway/bridge.py:267-270 | a refused attempt returns the rate-limit result and leaves one record of that outcome; a granted one goes on unrecorded |
| Handler.CallHandler.FindRule | sentinelmcp/gateway/bridge.py:272-279 | without an allow rule the attempt returns the unknown-tool result and leaves one record of that denial; otherwise it goes on with its tool policy |
| Handler.CallHandler.UpstreamTools | sentinelmcp/gateway/bridge.py:281-282 | the cached list without asking the upstream, or the fetched one, or the cause that the fetch raised |
| Handler.CallHandler.ValidateSchema | sentinelmcp/gateway/bridge.py:283-298 | a missing tool or a failed schema returns its own result and leaves one record of its outcome; otherwise the attempt goes on unrecorded |
| Handler.CallHandler.EvaluateArguments | sentinelmcp/gateway/bridge.py:300-306 | a violation returns the policy result and leaves one record of that denial; otherwise the attempt goes on unrecorded |
| Handler.CallHandler.TakeSlot | sentinelmcp/gateway/bridge.py:308-313 | the shared limiter and the machine decide alike; without a slot the attempt is about to record a concurrency rejection |
| Handler.CallHandler.Contact | sentinelmcp/gateway/bridge.py:315-340 | the upstream receives the name and arguments unchanged; the exit and the recorded outcome are those of its reply; the record is written while the slot is still held |
| Handler.CallHandler.GiveSlotBack | sentinelmcp/gateway/limits.py:144-150 | a slot is released exactly when it was acquired, and the way out is kept |
| Handler.CallHandler.CallUpstream | sentinelmcp/gateway/bridge.py:308-340 | the upstream is called exactly if there is room, the exit follows from its reply, and every active count is as before |
| Handler.CallHandler.RecordInterruption | sentinelmcp/gateway/bridge.py:341-348 | an attempt not yet recorded gets the one record of its interruption, a recorded one none, and the exception is raised on |
| Handler.CallHandler.HandleCallTool | sentinelmcp/gateway/bridge.py:217-348 | exit, the one record and its outcome, what the upstream was asked and received, and all active counts are a function of what the call found and what the upstream answers |
| PipelineProgress.PathContinuesTheRun | sentinelmcp/gateway/bridge.py:217-348 | what one attempt reaches by itself extends any run of the machine |
| Percentile.Compute | benchmarks/run.py:113-122 | NaN for an empty list, else the point on the line between the samples around the rank, where a rank below zero counts from the end; exactly when it raises; from 0 to 100 it never does, and stays within sorted data |
| Percentile.SubscriptCountsBothWays | benchmarks/run.py:119-122 | a place counts from the front, a negative one from the end, and one off the list raises |
| Percentile.PercentileBounds | benchmarks/run.py:113-122 | a percentile of sorted data lies within it, reaches both ends at 0 and 100, and grows with the percentage across rank boundaries |
| Percentile.PercentileOfRamp | benchmarks/run.py:113-122 | of evenly spaced samples the percentile is that share of the largest |
| Percentile.PercentileMonotoneInData | benchmarks/run.py:113-122 | pointwise slower data never lower a percentile |

## Left out

- HTTP, MCP sessions, the SDK client and server, authentication and key hashing: an attempt enters with its principal known, and the upstream is an environment that answers, fails, times out or never answers.
- JSON Schema validation, regular expressions, YAML loading and policy validation: schema and pattern matching are arbitrary total predicates, and a policy is a well-formed value.
- The wording of results and violation reasons, session ids, timestamps and latency values: results keep their category and tool name, records keep whether each optional latency is present.
- Exceptions thrown by the limiters.
- When the line of an interrupted audit write lands, in the pipeline machine: at the interruption or not at all. In the code its thread may finish later; `AuditLog` treats that for the file.
- AuditLog.FileSplitsIntoTheRecords: takes serialised lines to hold no newline and splits at newlines only, as the serialiser escapes every other line break.
- Redaction.Lower: lower-cases the letters A to Z only, so names outside ASCII that Python lower-cases to ASCII letters are not covered.
- Redaction.NormalizeConcatenation: ASCII letter case only; Python lower-cases a final sigma by its context, so over all of Unicode the law is false of the code.
- Redaction.NormalizeDecidesSpelling: ASCII letter case only.
- AuditLog.RedactedLogRevealsExactly: the serialiser is a function of the record with objects as maps, so lines that differ in field order only count as equal.
- Json.Float: floats are exact reals with infinities and NaN; rounding and the sign of zero are not modelled. Which reals are floats is a parameter where it matters.
- Python's identity short-cut for containers that share one NaN object: a policy value and a caller's value never share one.
- The order of an object's fields: objects are maps, and the argument policy visits the caller's fields in an arbitrary order.
- Handler.CallHandler.HandleCallTool: one uninterrupted call, in whose stages and audit writes nothing fails; interleaving, unexpected exceptions and interrupted writes are the machine's part.
- PipelineProgress.EveryRunCanFinish: an upstream that never answers, with no timeout configured, keeps an attempt waiting for ever; the result says what happens once it does answer.
- A non-positive upstream timeout, with which the SDK may give up before calling: the record would still say that a call was attempted.
- What the upstream goes on doing after a gateway timeout: the ceiling is about calls the gateway has in flight.
- `sentinelmcp/gateway/server.py`, the examples, and the benchmark harness around the percentile.
