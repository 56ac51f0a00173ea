/** The append-only audit file (sentinelmcp/telemetry/audit.py).

    Serialisation is a parameter `dumps`, assumed to produce no line break. A
    write is cut into arbitrary pieces, so that whole lines are the lock's doing. */
module AuditLog {
  import opened Wrappers
  import opened Json
  import Redaction
  import Text

  // ----- Records -----

  datatype Outcome =
    | RateLimited | PolicyDenied | SchemaRejected | ConcurrencyRejected
    | UpstreamSuccess | UpstreamError | UpstreamTimeout | Cancelled | InternalError

  datatype StageResult = Passed | Failed | NotEvaluated

  datatype Category = CategorySuccess | CategoryError | CategoryTimeout | CategoryCancelled

  /** One terminal record. Session, timestamp and the latency values are left
      out; of the two optional latencies only the presence is kept. */
  datatype AuditRecord = AuditRecord(
    correlationId: nat,
    principal: string,
    toolName: string,
    arguments: Json,
    outcome: Outcome,
    matchedRule: Option<string>,
    schemaResult: StageResult,
    policyResult: StageResult,
    rateLimitResult: StageResult,
    concurrencyResult: StageResult,
    upstreamAttempted: bool,
    upstreamCategory: Option<Category>,
    policyLatency: bool,
    upstreamLatency: bool)

  /** The record with its arguments represented as the mode demands. */
  function Payload(record: AuditRecord, mode: string): Result<AuditRecord> {
    match Redaction.RepresentArguments(record.arguments, mode)
    case Success(shown) => Success(record.(arguments := shown))
    case Failure(error) => Failure(error)
  }

  /** A payload is the record, but for its arguments, and those are shown as the
      mode promises. */
  lemma PayloadKeepsTheRest(record: AuditRecord, mode: string)
    ensures match Payload(record, mode)
            case Success(payload) =>
              && payload.(arguments := record.arguments) == record
              && Redaction.ShownAs(record.arguments, mode, payload.arguments)
            case Failure(_) => mode !in ["none", "keys_only", "redacted", "full"]
  {
    Redaction.RepresentationKeepsItsPromise(record.arguments, mode);
  }

  /** In the default mode, a payload hides what lies beneath sensitive names and
      tells apart everything else. */
  lemma RedactedPayloadRevealsExactly(r: AuditRecord, r': AuditRecord)
    ensures Payload(r, "redacted") == Payload(r', "redacted") <==>
              r' == r.(arguments := r'.arguments) && Redaction.AgreeWhereVisible(r.arguments, r'.arguments)
  {
    Redaction.RedactionNonInterference(r.arguments, r'.arguments);
    if Payload(r, "redacted") == Payload(r', "redacted") {
      var shown := Redaction.Redact(r.arguments);
      assert r.(arguments := shown) == r'.(arguments := shown);
      assert r'.(arguments := shown).(arguments := r'.arguments) == r';
    }
  }

  ghost function RedactedLines(records: seq<AuditRecord>, dumps: AuditRecord -> string): seq<string> {
    seq(|records|, i requires 0 <= i < |records| => dumps(Payload(records[i], "redacted").value))
  }

  /** The lines of a whole log, written without loss by `dumps`, coincide exactly
      when the records differ at most beneath sensitive argument names. */
  lemma RedactedLogRevealsExactly(log: seq<AuditRecord>, log': seq<AuditRecord>, dumps: AuditRecord -> string)
    requires forall r, r' :: dumps(r) == dumps(r') ==> r == r'
    ensures RedactedLines(log, dumps) == RedactedLines(log', dumps) <==>
              |log| == |log'|
              && forall i :: 0 <= i < |log| ==>
                   log'[i] == log[i].(arguments := log'[i].arguments)
                   && Redaction.AgreeWhereVisible(log[i].arguments, log'[i].arguments)
  {
    var lines, lines' := RedactedLines(log, dumps), RedactedLines(log', dumps);
    forall i | 0 <= i < |log| && i < |log'|
      ensures lines[i] == lines'[i] <==> log'[i] == log[i].(arguments := log'[i].arguments)
                                         && Redaction.AgreeWhereVisible(log[i].arguments, log'[i].arguments)
    {
      RedactedPayloadRevealsExactly(log[i], log'[i]);
    }
    if |log| == |log'| && lines != lines' {
      assert exists i :: 0 <= i < |log| && lines[i] != lines'[i];
    }
  }

  // ----- The file, written by many emitters -----

  datatype Stage = Waiting | Writing(done: nat) | Written

  /** `line` is what an emitter serialised. `order` lists the emitters in the order
      they obtained the lock, `begun` in the order of their first characters, and
      `owners` says who wrote each character of the file. */
  datatype LogState = LogState(
    file: string,
    owners: seq<nat>,
    holder: Option<nat>,
    line: map<nat, string>,
    stage: map<nat, Stage>,
    order: seq<nat>,
    begun: seq<nat>)

  /** `Abandon` is a cancellation under the lock: the lock is free again, while the
      thread that writes goes on, or never starts. */
  datatype LogStep =
    | Serialize(id: nat, text: string)
    | Acquire(id: nat)
    | Append(id: nat, count: nat)
    | Release(id: nat)
    | Abandon(id: nat)

  const EMPTY_LOG := LogState("", [], None, map[], map[], [], [])

  ghost predicate Enabled(s: LogState, step: LogStep) {
    match step
    case Serialize(id, text) => id !in s.stage && '\n' !in text
    case Acquire(id) => id in s.stage && s.stage[id] == Waiting && s.holder == None
    case Append(id, count) =>
      id in s.stage && id in s.line && s.stage[id].Writing? && s.stage[id].done + count <= |s.line[id]| + 1
    case Release(id) =>
      id in s.stage && id in s.line && s.holder == Some(id) && s.stage[id] == Writing(|s.line[id]| + 1)
    case Abandon(id) => s.holder == Some(id)
  }

  ghost function Next(s: LogState, step: LogStep): LogState
    requires Enabled(s, step)
  {
    match step
    case Serialize(id, text) => s.(line := s.line[id := text], stage := s.stage[id := Waiting])
    case Acquire(id) => s.(holder := Some(id), stage := s.stage[id := Writing(0)], order := s.order + [id])
    case Append(id, count) =>
      var done := s.stage[id].done;
      s.(file := s.file + (s.line[id] + "\n")[done..done + count],
         owners := s.owners + Repeat(id, count),
         stage := s.stage[id := Writing(done + count)],
         begun := if done == 0 < count then s.begun + [id] else s.begun)
    case Release(id) => s.(holder := None, stage := s.stage[id := Written])
    case Abandon(_) => s.(holder := None)
  }

  ghost function Repeat(id: nat, count: nat): seq<nat> { seq(count, _ => id) }

  /** `states` is a run: it starts empty and `steps[i]` leads from state i to i + 1. */
  ghost predicate Run(states: seq<LogState>, steps: seq<LogStep>) {
    && |states| == |steps| + 1
    && states[0] == EMPTY_LOG
    && forall i :: 0 <= i < |steps| ==> Enabled(states[i], steps[i]) && states[i + 1] == Next(states[i], steps[i])
  }

  /** How much of its line, newline included, an emitter has written. */
  ghost function Done(s: LogState, id: nat): nat {
    if id !in s.stage || id !in s.line then 0
    else match s.stage[id]
         case Waiting => 0
         case Writing(done) => done
         case Written => |s.line[id]| + 1
  }

  ghost predicate MidLine(s: LogState, id: nat) { id in s.line && 0 < Done(s, id) <= |s.line[id]| }

  /** Nobody has begun a line and not finished it. */
  ghost predicate Quiet(s: LogState) { forall id :: !MidLine(s, id) }

  /** Somebody writes into a line that another has begun and not finished. */
  ghost predicate Tears(s: LogState, step: LogStep) {
    step.Append? && step.count > 0 && exists id :: id != step.id && MidLine(s, id)
  }

  ghost predicate Torn(states: seq<LogState>, steps: seq<LogStep>)
    requires |states| == |steps| + 1
  {
    exists i :: 0 <= i < |steps| && Tears(states[i], steps[i])
  }

  ghost predicate NobodyAbandons(steps: seq<LogStep>) { forall i :: 0 <= i < |steps| ==> !steps[i].Abandon? }

  /** Nothing of one writer stands between two characters of another. */
  ghost predicate Contiguous(owners: seq<nat>) {
    forall i, j, k :: 0 <= i < j < k < |owners| && owners[i] == owners[k] ==> owners[j] == owners[i]
  }

  ghost function Lines(order: seq<nat>, line: map<nat, string>): seq<string>
    requires forall i :: 0 <= i < |order| ==> order[i] in line
  {
    seq(|order|, i requires 0 <= i < |order| => line[order[i]])
  }

  /** Every line followed by a newline. */
  ghost function Framed(lines: seq<string>): string {
    if lines == [] then "" else Framed(lines[..|lines| - 1]) + lines[|lines| - 1] + "\n"
  }

  ghost predicate Distinct(order: seq<nat>) {
    forall i, j :: 0 <= i < j < |order| ==> order[i] != order[j]
  }

  /** Who has which stage, who has begun, and who owns what. */
  ghost predicate Bookkept(s: LogState) {
    && s.line.Keys == s.stage.Keys
    && (forall id :: id in s.line ==> '\n' !in s.line[id] && Done(s, id) <= |s.line[id]| + 1)
    && (forall id :: id in s.begun <==> Done(s, id) > 0)
    && (forall id :: id in s.owners <==> Done(s, id) > 0)
    && Distinct(s.begun)
    && (s.holder.Some? ==> s.holder.value in s.stage && s.stage[s.holder.value].Writing?)
  }

  lemma AppendKeepsBookkeeping(s: LogState, id: nat, count: nat)
    requires Bookkept(s) && Enabled(s, Append(id, count))
    ensures Bookkept(Next(s, Append(id, count)))
  {
    var t := Next(s, Append(id, count));
    forall i ensures i in t.owners <==> Done(t, i) > 0 {
      assert i in t.owners <==> i in s.owners || i in Repeat(id, count);
      assert i in Repeat(id, count) <==> i == id && count > 0 by {
        if count > 0 { assert Repeat(id, count)[0] == id; }
      }
    }
  }

  lemma NextKeepsBookkeeping(s: LogState, step: LogStep)
    requires Bookkept(s) && Enabled(s, step)
    ensures Bookkept(Next(s, step))
  {
    if step.Append? { AppendKeepsBookkeeping(s, step.id, step.count); }
  }

  lemma {:induction false} RunIsBookkept(states: seq<LogState>, steps: seq<LogStep>, n: nat)
    requires Run(states, steps) && n < |states|
    ensures Bookkept(states[n])
  {
    if n > 0 {
      RunIsBookkept(states, steps, n - 1);
      assert states[n - 1 + 1] == Next(states[n - 1], steps[n - 1]);
      NextKeepsBookkeeping(states[n - 1], steps[n - 1]);
    }
  }

  // ----- While no line is torn -----

  /** All who have begun have finished, but for the last at most. */
  ghost predicate OneAtATime(s: LogState) {
    forall i :: 0 <= i < |s.begun| - 1 ==> !MidLine(s, s.begun[i])
  }

  ghost function Chunk(s: LogState, id: nat): string
    requires id in s.line && Done(s, id) <= |s.line[id]| + 1
  {
    (s.line[id] + "\n")[..Done(s, id)]
  }

  /** The file: whole lines of those who have begun, and the last one's as far as
      it got. */
  ghost predicate FileIsFramed(s: LogState)
    requires Bookkept(s)
  {
    if s.begun == [] then s.file == ""
    else
      var last := |s.begun| - 1;
      && (forall i :: 0 <= i < |s.begun| ==> s.begun[i] in s.line)
      && s.file == Framed(Lines(s.begun[..last], s.line)) + Chunk(s, s.begun[last])
  }

  lemma BegunHaveLines(s: LogState)
    requires Bookkept(s)
    ensures forall i :: 0 <= i < |s.begun| ==> s.begun[i] in s.line && Done(s, s.begun[i]) > 0
  {
    forall i | 0 <= i < |s.begun| ensures s.begun[i] in s.line && Done(s, s.begun[i]) > 0 {
      assert s.begun[i] in s.begun;
    }
  }

  lemma FramedOneMore(order: seq<nat>, line: map<nat, string>)
    requires order != [] && forall i :: 0 <= i < |order| ==> order[i] in line
    ensures var last := |order| - 1;
            Framed(Lines(order, line)) == Framed(Lines(order[..last], line)) + (line[order[last]] + "\n")
  {
    var last := |order| - 1;
    var lines, earlier := Lines(order, line), Lines(order[..last], line);
    assert lines[..last] == earlier && lines[last] == line[order[last]];
    assert Framed(earlier) + lines[last] + "\n" == Framed(earlier) + (lines[last] + "\n");
  }

  /** With everybody's line finished, the file is whole lines. */
  lemma QuietFileIsFramed(s: LogState)
    requires Bookkept(s) && FileIsFramed(s) && Quiet(s)
    ensures (forall i :: 0 <= i < |s.begun| ==> s.begun[i] in s.line) && s.file == Framed(Lines(s.begun, s.line))
  {
    BegunHaveLines(s);
    if s.begun == [] {
      assert Lines(s.begun, s.line) == [];
    } else {
      var id := s.begun[|s.begun| - 1];
      assert !MidLine(s, id) && Chunk(s, id) == s.line[id] + "\n";
      FramedOneMore(s.begun, s.line);
    }
  }

  lemma UnfinishedIsLast(s: LogState, id: nat)
    requires Bookkept(s) && OneAtATime(s) && MidLine(s, id)
    ensures s.begun != [] && s.begun[|s.begun| - 1] == id
  {
    assert id in s.begun;
    var place :| 0 <= place < |s.begun| && s.begun[place] == id;
    assert MidLine(s, s.begun[place]);
  }

  lemma ContinuedLineStaysFramed(s: LogState, id: nat, count: nat)
    requires Bookkept(s) && FileIsFramed(s) && OneAtATime(s) && Enabled(s, Append(id, count)) && count > 0
    requires Done(s, id) > 0 && Bookkept(Next(s, Append(id, count)))
    ensures FileIsFramed(Next(s, Append(id, count)))
  {
    var earlier := s.begun[..|s.begun| - 1];
    UnfinishedIsLast(s, id);
    BegunHaveLines(s);
    assert s.begun == earlier + [id];
    ContinuedFile(s, id, count, Framed(Lines(earlier, s.line)));
    FramedWithLast(Next(s, Append(id, count)), earlier, id);
  }

  lemma ContinuedFile(s: LogState, id: nat, count: nat, whole: string)
    requires Enabled(s, Append(id, count)) && s.file == whole + Chunk(s, id)
    ensures var t := Next(s, Append(id, count));
            Done(t, id) <= |t.line[id]| + 1 && t.file == whole + Chunk(t, id)
  {
    PieceAppended(whole, s.line[id] + "\n", s.stage[id].done, count);
  }

  lemma PieceAppended(whole: string, text: string, done: nat, count: nat)
    requires done + count <= |text|
    ensures whole + text[..done] + text[done..done + count] == whole + text[..done + count]
  {
    assert text[..done] + text[done..done + count] == text[..done + count];
    assert whole + text[..done] + text[done..done + count] == whole + (text[..done] + text[done..done + count]);
  }

  lemma UntornStartIsQuiet(s: LogState, id: nat, count: nat)
    requires count > 0 && Done(s, id) == 0 && !Tears(s, Append(id, count))
    ensures Quiet(s)
  {
    forall other ensures !MidLine(s, other) {}
  }

  lemma FramedWithLast(t: LogState, earlier: seq<nat>, id: nat)
    requires Bookkept(t) && t.begun == earlier + [id] && (forall i :: 0 <= i < |earlier| ==> earlier[i] in t.line)
    requires id in t.line && t.file == Framed(Lines(earlier, t.line)) + Chunk(t, id)
    ensures FileIsFramed(t)
  {
    assert t.begun[..|t.begun| - 1] == earlier && t.begun[|t.begun| - 1] == id;
    BegunHaveLines(t);
  }

  lemma NewLineStaysFramed(s: LogState, id: nat, count: nat)
    requires Bookkept(s) && FileIsFramed(s) && OneAtATime(s) && Enabled(s, Append(id, count)) && count > 0
    requires Done(s, id) == 0 && !Tears(s, Append(id, count)) && Bookkept(Next(s, Append(id, count)))
    ensures FileIsFramed(Next(s, Append(id, count)))
  {
    var t := Next(s, Append(id, count));
    UntornStartIsQuiet(s, id, count);
    QuietFileIsFramed(s);
    assert Chunk(t, id) == (s.line[id] + "\n")[0..count];
    FramedWithLast(t, s.begun, id);
  }

  /** Nothing written, and nothing changed of those who have begun. */
  lemma SameTextStaysFramed(s: LogState, t: LogState)
    requires Bookkept(s) && FileIsFramed(s) && Bookkept(t) && t.file == s.file && t.begun == s.begun
    requires forall id :: id in s.begun && id in s.line ==>
               id in t.line && t.line[id] == s.line[id] && Done(t, id) == Done(s, id)
    ensures FileIsFramed(t)
  {
    BegunHaveLines(s);
    if s.begun != [] {
      var last := |s.begun| - 1;
      assert forall i :: 0 <= i < |s.begun| ==> s.begun[i] in s.begun;
      assert Lines(s.begun[..last], t.line) == Lines(s.begun[..last], s.line);
      assert Chunk(t, s.begun[last]) == Chunk(s, s.begun[last]);
    }
  }

  lemma NothingAppendedStaysFramed(s: LogState, id: nat)
    requires Bookkept(s) && FileIsFramed(s) && Enabled(s, Append(id, 0)) && Bookkept(Next(s, Append(id, 0)))
    ensures FileIsFramed(Next(s, Append(id, 0)))
  {
    assert s.file + (s.line[id] + "\n")[s.stage[id].done..s.stage[id].done] == s.file;
    SameTextStaysFramed(s, Next(s, Append(id, 0)));
  }

  lemma NextStaysFramed(s: LogState, step: LogStep)
    requires Bookkept(s) && FileIsFramed(s) && OneAtATime(s) && Enabled(s, step) && !Tears(s, step)
    requires Bookkept(Next(s, step))
    ensures FileIsFramed(Next(s, step))
  {
    match step
    case Append(id, count) =>
      if count == 0 { NothingAppendedStaysFramed(s, id); }
      else if Done(s, id) > 0 { ContinuedLineStaysFramed(s, id, count); }
      else { NewLineStaysFramed(s, id, count); }
    case _ => OtherStepsStayFramed(s, step);
  }

  lemma OtherStepsStayFramed(s: LogState, step: LogStep)
    requires Bookkept(s) && FileIsFramed(s) && Enabled(s, step) && !step.Append? && Bookkept(Next(s, step))
    ensures FileIsFramed(Next(s, step))
  {
    var t := Next(s, step);
    forall id | id in s.begun && id in s.line
      ensures id in t.line && t.line[id] == s.line[id] && Done(t, id) == Done(s, id)
    {
      OtherStepsKeepLines(s, step, id);
    }
    SameTextStaysFramed(s, t);
  }

  lemma OtherStepsKeepLines(s: LogState, step: LogStep, id: nat)
    requires s.line.Keys == s.stage.Keys && Enabled(s, step) && !step.Append? && id in s.line
    ensures var t := Next(s, step); id in t.line && t.line[id] == s.line[id] && Done(t, id) == Done(s, id)
  {
  }

  lemma NextStaysOneAtATime(s: LogState, step: LogStep)
    requires Bookkept(s) && OneAtATime(s) && Enabled(s, step) && !Tears(s, step)
    ensures OneAtATime(Next(s, step))
  {
    var t := Next(s, step);
    forall i | 0 <= i < |t.begun| - 1 ensures !MidLine(t, t.begun[i]) {
      BegunHaveLines(s);
      assert i < |s.begun| && t.begun[i] == s.begun[i];
      if step.Append? && step.count > 0 && s.begun[i] != step.id {
        assert !MidLine(s, s.begun[i]);
      }
    }
  }

  lemma {:induction false} UntornRunIsFramed(states: seq<LogState>, steps: seq<LogStep>, n: nat)
    requires Run(states, steps) && n < |states| && forall i :: 0 <= i < n ==> !Tears(states[i], steps[i])
    ensures Bookkept(states[n]) && OneAtATime(states[n]) && FileIsFramed(states[n])
  {
    RunIsBookkept(states, steps, n);
    if n > 0 {
      UntornRunIsFramed(states, steps, n - 1);
      assert states[n - 1 + 1] == Next(states[n - 1], steps[n - 1]);
      NextStaysOneAtATime(states[n - 1], steps[n - 1]);
      NextStaysFramed(states[n - 1], steps[n - 1]);
    }
  }

  lemma {:induction false} FramedIsJoin(lines: seq<string>)
    ensures Framed(lines) == Text.Join(lines + [""], '\n')
  {
    if lines != [] {
      var last := lines[|lines| - 1];
      FramedIsJoin(lines[..|lines| - 1]);
      JoinAtEnd(lines[..|lines| - 1], last);
      assert lines[..|lines| - 1] + [last, ""] == lines + [""];
    }
  }

  lemma {:induction false} JoinAtEnd(lines: seq<string>, last: string)
    ensures Text.Join(lines + [last, ""], '\n') == Text.Join(lines + [""], '\n') + last + "\n"
  {
    if lines == [] {
      assert [last, ""][1..] == [""];
      assert Text.Join([last, ""], '\n') == last + ['\n'] + "";
    } else {
      JoinAtEnd(lines[1..], last);
      assert (lines + [last, ""])[1..] == lines[1..] + [last, ""];
      assert (lines + [""])[1..] == lines[1..] + [""];
    }
  }

  // ----- Torn lines -----

  /** A line already torn, or one that its writer, still to finish, will find torn. */
  ghost predicate TornInFile(s: LogState) {
    || !Contiguous(s.owners)
    || exists i, j :: 0 <= i < j < |s.owners| && s.owners[i] != s.owners[j] && MidLine(s, s.owners[i])
  }

  lemma OwnersOnlyGrow(s: LogState, step: LogStep)
    requires Enabled(s, step)
    ensures s.owners <= Next(s, step).owners && (!Contiguous(s.owners) ==> !Contiguous(Next(s, step).owners))
  {
    var t := Next(s, step);
    if !Contiguous(s.owners) {
      var i, j, k :| 0 <= i < j < k < |s.owners| && s.owners[i] == s.owners[k] && s.owners[j] != s.owners[i];
      assert t.owners[i] == t.owners[k] && t.owners[j] != t.owners[i];
    }
  }

  lemma TearingShows(s: LogState, step: LogStep)
    requires Bookkept(s) && Enabled(s, step) && Tears(s, step)
    ensures TornInFile(Next(s, step))
  {
    var t := Next(s, step);
    var id :| id != step.id && MidLine(s, id);
    assert id in s.owners;
    var i :| 0 <= i < |s.owners| && s.owners[i] == id;
    assert t.owners[i] == id && t.owners[|s.owners|] == step.id && MidLine(t, id);
  }

  lemma TornStaysTorn(s: LogState, step: LogStep)
    requires Bookkept(s) && Enabled(s, step) && TornInFile(s)
    ensures TornInFile(Next(s, step))
  {
    var t := Next(s, step);
    OwnersOnlyGrow(s, step);
    if Contiguous(s.owners) {
      var i, j :| 0 <= i < j < |s.owners| && s.owners[i] != s.owners[j] && MidLine(s, s.owners[i]);
      if step.Append? && step.id == s.owners[i] && step.count > 0 {
        ResumedLineIsTorn(s, step.id, step.count, i, j);
      } else {
        assert t.owners[i] == s.owners[i] && t.owners[j] == s.owners[j];
        OthersStayMidLine(s, step, s.owners[i]);
      }
    }
  }

  lemma ResumedLineIsTorn(s: LogState, id: nat, count: nat, i: nat, j: nat)
    requires Enabled(s, Append(id, count)) && count > 0 && i < j < |s.owners| && s.owners[i] == id != s.owners[j]
    ensures !Contiguous(Next(s, Append(id, count)).owners)
  {
    var owners := Next(s, Append(id, count)).owners;
    assert owners[i] == id && owners[j] == s.owners[j] && owners[|s.owners|] == id;
  }

  lemma OthersStayMidLine(s: LogState, step: LogStep, id: nat)
    requires Bookkept(s) && Enabled(s, step) && MidLine(s, id) && !(step.Append? && step.id == id && step.count > 0)
    ensures MidLine(Next(s, step), id)
  {
  }

  lemma {:induction false} TornRunIsTornInFile(states: seq<LogState>, steps: seq<LogStep>, i: nat, n: nat)
    requires Run(states, steps) && i < n < |states| && Tears(states[i], steps[i])
    ensures TornInFile(states[n])
  {
    RunIsBookkept(states, steps, n - 1);
    assert states[n - 1 + 1] == Next(states[n - 1], steps[n - 1]);
    if i == n - 1 {
      TearingShows(states[i], steps[i]);
    } else {
      TornRunIsTornInFile(states, steps, i, n - 1);
      TornStaysTorn(states[n - 1], steps[n - 1]);
    }
  }

  /** Lines written one after the other have contiguous owners. */
  ghost predicate Blocks(s: LogState) {
    && Contiguous(s.owners)
    && (s.owners != [] ==> s.begun != [] && s.owners[|s.owners| - 1] == s.begun[|s.begun| - 1])
  }

  lemma ContinuedLineStaysBlocks(s: LogState, id: nat, count: nat)
    requires Bookkept(s) && OneAtATime(s) && Blocks(s) && Enabled(s, Append(id, count)) && count > 0 && Done(s, id) > 0
    ensures Blocks(Next(s, Append(id, count)))
  {
    var t := Next(s, Append(id, count));
    UnfinishedIsLast(s, id);
    assert id in s.owners;
    BlockGrows(s.owners, t.owners, id);
  }

  lemma NewLineStaysBlocks(s: LogState, id: nat, count: nat)
    requires Bookkept(s) && Blocks(s) && Enabled(s, Append(id, count)) && count > 0 && Done(s, id) == 0
    ensures Blocks(Next(s, Append(id, count)))
  {
    assert id !in s.owners;
    BlockStarts(s.owners, Next(s, Append(id, count)).owners, id);
  }

  lemma NextStaysBlocks(s: LogState, step: LogStep)
    requires Bookkept(s) && OneAtATime(s) && Blocks(s) && Enabled(s, step)
    ensures Blocks(Next(s, step))
  {
    if step.Append? && step.count > 0 {
      if Done(s, step.id) > 0 { ContinuedLineStaysBlocks(s, step.id, step.count); }
      else { NewLineStaysBlocks(s, step.id, step.count); }
    }
  }

  lemma BlockGrows(owners: seq<nat>, owners': seq<nat>, id: nat)
    requires Contiguous(owners) && owners != [] && owners[|owners| - 1] == id && owners <= owners'
    requires forall i :: |owners| <= i < |owners'| ==> owners'[i] == id
    ensures Contiguous(owners')
  {
    var n := |owners|;
    forall i, j, k | 0 <= i < j < k < |owners'| && owners'[i] == owners'[k] ensures owners'[j] == owners'[i] {
      if k >= n && j < n - 1 { assert owners[i] == owners[n - 1] && owners[j] == owners[i]; }
      if k < n { assert owners[i] == owners[k] && owners[j] == owners[i]; }
    }
  }

  lemma BlockStarts(owners: seq<nat>, owners': seq<nat>, id: nat)
    requires Contiguous(owners) && id !in owners && owners <= owners'
    requires forall i :: |owners| <= i < |owners'| ==> owners'[i] == id
    ensures Contiguous(owners')
  {
    assert forall i :: 0 <= i < |owners| ==> owners'[i] == owners[i] != id;
    forall i, j, k | 0 <= i < j < k < |owners'| && owners'[i] == owners'[k] ensures owners'[j] == owners'[i] {
      if k < |owners| { assert owners[i] == owners[k] && owners[j] == owners[i]; }
    }
  }

  lemma {:induction false} UntornRunIsBlocks(states: seq<LogState>, steps: seq<LogStep>, n: nat)
    requires Run(states, steps) && n < |states| && forall i :: 0 <= i < n ==> !Tears(states[i], steps[i])
    ensures Blocks(states[n])
  {
    if n > 0 {
      UntornRunIsBlocks(states, steps, n - 1);
      UntornRunIsFramed(states, steps, n - 1);
      assert states[n - 1 + 1] == Next(states[n - 1], steps[n - 1]);
      NextStaysBlocks(states[n - 1], steps[n - 1]);
    }
  }

  // ----- Without cancelled writers -----

  /** Only the lock's holder has an unfinished line, and lines begin in lock order. */
  ghost predicate LockOrder(s: LogState) {
    && (forall id :: id in s.stage && s.stage[id].Writing? ==> s.holder == Some(id))
    && match s.holder
       case None => s.begun == s.order
       case Some(h) =>
         && s.order != [] && s.order[|s.order| - 1] == h
         && s.begun == if Done(s, h) > 0 then s.order else s.order[..|s.order| - 1]
  }

  lemma AppendKeepsLockOrder(s: LogState, id: nat, count: nat)
    requires Bookkept(s) && LockOrder(s) && Enabled(s, Append(id, count))
    ensures LockOrder(Next(s, Append(id, count)))
  {
    var t, earlier := Next(s, Append(id, count)), s.order[..|s.order| - 1];
    assert s.holder == Some(id) && earlier + [id] == s.order;
    assert Done(t, id) == Done(s, id) + count;
    BegunInLockOrder(s.begun, t.begun, earlier, id, Done(s, id), count);
  }

  lemma BegunInLockOrder(begun: seq<nat>, begun': seq<nat>, earlier: seq<nat>, id: nat, done: nat, count: nat)
    requires begun == if done > 0 then earlier + [id] else earlier
    requires begun' == if done == 0 < count then begun + [id] else begun
    ensures begun' == if done + count > 0 then earlier + [id] else earlier
  {
  }

  lemma AcquireKeepsLockOrder(s: LogState, id: nat)
    requires Bookkept(s) && LockOrder(s) && Enabled(s, Acquire(id))
    ensures LockOrder(Next(s, Acquire(id)))
  {
    assert (s.order + [id])[..|s.order|] == s.order;
  }

  lemma OnlyTheHolderIsMidLine(s: LogState, step: LogStep)
    requires LockOrder(s) && Enabled(s, step)
    ensures !Tears(s, step)
  {
    forall id: nat ensures MidLine(s, id) ==> s.holder == Some(id) {}
  }

  lemma NextKeepsLockOrder(s: LogState, step: LogStep)
    requires Bookkept(s) && LockOrder(s) && Enabled(s, step) && !step.Abandon?
    ensures LockOrder(Next(s, step)) && !Tears(s, step)
  {
    OnlyTheHolderIsMidLine(s, step);
    match step
    case Acquire(id) => AcquireKeepsLockOrder(s, id);
    case Append(id, count) => AppendKeepsLockOrder(s, id, count);
    case _ =>
  }

  lemma {:induction false} LockOrderHolds(states: seq<LogState>, steps: seq<LogStep>, n: nat)
    requires Run(states, steps) && NobodyAbandons(steps) && n < |states|
    ensures LockOrder(states[n]) && forall i :: 0 <= i < n ==> !Tears(states[i], steps[i])
  {
    if n > 0 {
      LockOrderHolds(states, steps, n - 1);
      RunIsBookkept(states, steps, n - 1);
      assert states[n - 1 + 1] == Next(states[n - 1], steps[n - 1]);
      NextKeepsLockOrder(states[n - 1], steps[n - 1]);
    }
  }

  /** Once nobody is in the middle of a line, nothing of one writer stands inside
      another's line exactly if nobody ever wrote into an unfinished line. Then the
      file splits into the lines of those who wrote, whole, one each, in the order
      they began. */
  lemma FileSplitsIntoTheRecords(states: seq<LogState>, steps: seq<LogStep>, s: LogState)
    requires Run(states, steps) && s == states[|steps|] && Quiet(s)
    ensures Contiguous(s.owners) <==> !Torn(states, steps)
    ensures forall id :: id in s.begun ==> id in s.line
    ensures !Torn(states, steps) ==> Text.Split(s.file, '\n') == Lines(s.begun, s.line) + [""]
    ensures Distinct(s.begun) && forall id :: id in s.begun <==> Done(s, id) > 0
  {
    RunIsBookkept(states, steps, |steps|);
    BegunHaveLines(s);
    if i: nat :| i < |steps| && Tears(states[i], steps[i]) {
      TornRunIsTornInFile(states, steps, i, |steps|);
    } else {
      UntornRunIsBlocks(states, steps, |steps|);
      UntornRunIsFramed(states, steps, |steps|);
      QuietFileIsFramed(s);
      SplitOfFramed(Lines(s.begun, s.line));
    }
  }

  lemma SplitOfFramed(lines: seq<string>)
    requires forall i :: 0 <= i < |lines| ==> '\n' !in lines[i]
    ensures Text.Split(Framed(lines), '\n') == lines + [""]
  {
    FramedIsJoin(lines);
    Text.SplitOfJoin(lines + [""], '\n');
  }

  /** Where no writer is cancelled, no line is ever torn: whatever the interleaving,
      once the lock is free the file splits into one whole line for each emitter
      that obtained it, in lock order. */
  lemma FileSplitsInLockOrder(states: seq<LogState>, steps: seq<LogStep>, s: LogState)
    requires Run(states, steps) && s == states[|steps|] && NobodyAbandons(steps) && s.holder == None
    ensures !Torn(states, steps) && forall id :: id in s.order ==> id in s.line
    ensures Text.Split(s.file, '\n') == Lines(s.order, s.line) + [""]
    ensures Distinct(s.order) && forall id :: id in s.order <==> id in s.stage && s.stage[id] == Written
  {
    LockOrderHolds(states, steps, |steps|);
    RunIsBookkept(states, steps, |steps|);
    FileSplitsIntoTheRecords(states, steps, s);
  }

  /** Emitter 0 has written the first character of its line "a" and was cancelled;
      emitter 1 waits to write "b". */
  const HALFWAY :=
    LogState("a", [0], None, map[0 := "a", 1 := "b"], map[0 := Writing(1), 1 := Waiting], [0], [0])

  lemma CancelledHalfway() returns (states: seq<LogState>, steps: seq<LogStep>)
    ensures Run(states, steps) && |steps| == 5 && states[5] == HALFWAY
  {
    steps := [Serialize(0, "a"), Serialize(1, "b"), Acquire(0), Append(0, 1), Abandon(0)];
    var s1 := Next(EMPTY_LOG, steps[0]);
    var s2 := Next(s1, steps[1]);
    var s3 := Next(s2, steps[2]);
    var s4 := Next(s3, steps[3]);
    states := [EMPTY_LOG, s1, s2, s3, s4, Next(s4, steps[4])];
    assert s4.stage == HALFWAY.stage && s4.owners == [0] && s4.file == "a";
  }

  lemma OneMoreLogStep(states: seq<LogState>, steps: seq<LogStep>, step: LogStep)
    requires Run(states, steps) && Enabled(states[|steps|], step)
    ensures Run(states + [Next(states[|steps|], step)], steps + [step])
  {
    var states', steps' := states + [Next(states[|steps|], step)], steps + [step];
    forall i | 0 <= i < |steps'|
      ensures Enabled(states'[i], steps'[i]) && states'[i + 1] == Next(states'[i], steps'[i])
    {
      if i < |steps| { assert states'[i] == states[i] && states'[i + 1] == states[i + 1] && steps'[i] == steps[i]; }
    }
  }

  lemma AfterHalfway()
    ensures var s := Next(HALFWAY, Acquire(1));
            && MidLine(s, 0) && Enabled(s, Append(1, 2))
            && var t := Next(s, Append(1, 2));
            && Enabled(t, Append(0, 1))
            && var u := Next(t, Append(0, 1));
            && u.file == "ab\n\n" && u.line == HALFWAY.line && Quiet(u)
  {
    var u := Next(Next(Next(HALFWAY, Acquire(1)), Append(1, 2)), Append(0, 1));
    assert Done(u, 0) == 2 && Done(u, 1) == 2;
  }

  /** A cancelled writer can tear a line: it has written one character, another takes
      the lock and writes its line, and only then comes the rest. */
  lemma AbandonedWriterTearsALine() returns (states: seq<LogState>, steps: seq<LogStep>)
    ensures Run(states, steps) && Quiet(states[|steps|]) && Torn(states, steps)
    ensures states[|steps|].line == map[0 := "a", 1 := "b"] && Text.Split(states[|steps|].file, '\n') == ["ab", "", ""]
  {
    states, steps := CancelledHalfway();
    AfterHalfway();
    var s := Next(HALFWAY, Acquire(1));
    var t := Next(s, Append(1, 2));
    OneMoreLogStep(states, steps, Acquire(1));
    states, steps := states + [s], steps + [Acquire(1)];
    OneMoreLogStep(states, steps, Append(1, 2));
    states, steps := states + [t], steps + [Append(1, 2)];
    OneMoreLogStep(states, steps, Append(0, 1));
    states, steps := states + [Next(t, Append(0, 1))], steps + [Append(0, 1)];
    assert Tears(states[6], steps[6]);
    assert Framed(["ab", ""]) == "ab\n\n" by {
      assert ["ab", ""][..1] == ["ab"] && ["ab"][..0] == [];
    }
    SplitOfFramed(["ab", ""]);
  }

  // ----- The logger object -----

  /** One emitter at a time, as the lock makes it: each call appends one line. */
  class AuditLogger {
    var file: string
    const redactionMode: string
    const dumps: AuditRecord -> string
    ghost var emitted: seq<AuditRecord>

    ghost predicate Valid()
      reads this
    {
      && (forall r :: '\n' !in dumps(r))
      && redactionMode in ["none", "keys_only", "redacted", "full"]
      && file == Framed(LinesOf(emitted))
    }

    ghost function LinesOf(records: seq<AuditRecord>): seq<string>
      requires redactionMode in ["none", "keys_only", "redacted", "full"]
    {
      seq(|records|, i requires 0 <= i < |records| => dumps(Payload(records[i], redactionMode).value))
    }

    constructor (redactionMode: string, dumps: AuditRecord -> string)
      requires forall r :: '\n' !in dumps(r)
      requires redactionMode in ["none", "keys_only", "redacted", "full"]
      ensures Valid() && emitted == [] && this.redactionMode == redactionMode && this.dumps == dumps
    {
      this.redactionMode := redactionMode;
      this.dumps := dumps;
      file := "";
      emitted := [];
    }

    method Emit(record: AuditRecord)
      requires Valid()
      modifies this
      ensures Valid()
      ensures emitted == old(emitted) + [record]
      ensures var payload := Payload(record, redactionMode).value;
              && file == old(file) + dumps(payload) + "\n"
              && payload.(arguments := record.arguments) == record
              && Redaction.ShownAs(record.arguments, redactionMode, payload.arguments)
      ensures Text.Split(file, '\n') == LinesOf(emitted) + [""]
    {
      OneMoreLine(emitted, record);
      PayloadKeepsTheRest(record, redactionMode);
      var payload := Payload(record, redactionMode);
      var line := dumps(payload.value) + "\n";
      file := file + line;
      emitted := emitted + [record];
    }

    lemma OneMoreLine(records: seq<AuditRecord>, record: AuditRecord)
      requires (forall r :: '\n' !in dumps(r)) && redactionMode in ["none", "keys_only", "redacted", "full"]
      ensures Framed(LinesOf(records + [record]))
              == Framed(LinesOf(records)) + (dumps(Payload(record, redactionMode).value) + "\n")
      ensures Text.Split(Framed(LinesOf(records + [record])), '\n') == LinesOf(records + [record]) + [""]
    {
      var lines, line := LinesOf(records + [record]), dumps(Payload(record, redactionMode).value);
      assert lines[..|lines| - 1] == LinesOf(records) && lines[|lines| - 1] == line;
      assert Framed(LinesOf(records)) + line + "\n" == Framed(LinesOf(records)) + (line + "\n");
      forall i | 0 <= i < |lines| ensures '\n' !in lines[i] {
        assert lines[i] == dumps(Payload((records + [record])[i], redactionMode).value);
      }
      SplitOfFramed(lines);
    }
  }
}
