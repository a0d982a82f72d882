/**
 Which policy generation a grant and a claim act under. The handlers compare a row with a generation they
 read earlier; the policy can move on in between.
 */
module ProtocolGenerations {
  import opened Capabilities
  import opened ApprovalLog
  import opened Protocol

  // ---------------------------------------------------------------- the generation moves on

  function Bumps(steps: seq<Step>): nat {
    if steps == [] then 0 else Bumps(steps[..|steps| - 1]) + if steps[|steps| - 1].BumpGeneration? then 1 else 0
  }

  lemma GenerationStep(s: State, step: Step)
    ensures Do(s, step).generation == s.generation + if step.BumpGeneration? then 1 else 0
  {
  }

  lemma {:induction false} GenerationCountsBumps(steps: seq<Step>)
    ensures Run(steps).generation == Bumps(steps)
  {
    if steps != [] {
      GenerationCountsBumps(steps[..|steps| - 1]);
      GenerationStep(Run(steps[..|steps| - 1]), steps[|steps| - 1]);
    }
  }

  lemma {:induction false} BumpsSince(steps: seq<Step>, i: nat)
    requires i <= |steps|
    ensures Bumps(steps) >= Bumps(steps[..i])
    ensures Bumps(steps) == Bumps(steps[..i]) <==> forall j | i <= j < |steps| :: !steps[j].BumpGeneration?
  {
    if i == |steps| {
      assert steps[..i] == steps;
    } else {
      var shorter := steps[..|steps| - 1];
      BumpsSince(shorter, i);
      assert shorter[..i] == steps[..i];
    }
  }

  /** A generation read after `i` steps is still current exactly when no step bumped it since. */
  lemma CurrentExactlyWhenNotBumped(steps: seq<Step>, i: nat, read: Generation)
    requires i <= |steps| && read == Run(steps[..i]).generation
    ensures Run(steps).generation == read <==> forall j | i <= j < |steps| :: !steps[j].BumpGeneration?
  {
    GenerationCountsBumps(steps);
    GenerationCountsBumps(steps[..i]);
    BumpsSince(steps, i);
  }

  // ---------------------------------------------------------------- where a thread read it

  predicate MovesThreads(step: Step) {
    step.DoExecuteStart? || step.DoExecutePoll? || step.DoExecuteRun? || step.DoExecuteEnd? || step.DoRestart?
  }

  lemma OthersKeepThreads(s: State, step: Step)
    requires !MovesThreads(step)
    ensures Do(s, step).executions == s.executions
  {
  }

  lemma ThreadStarts(s: State, step: Step, thread: Thread)
    requires step.DoExecuteStart? && thread in Do(s, step).executions && thread !in s.executions
    ensures step.thread == thread && Do(s, step).executions[thread].binding.generation == s.generation
  {
  }

  /** The same operation at the same broker, whatever its phase. */
  predicate SameHolder(x: Execution, y: Execution) {
    x.binding == y.binding && x.target == y.target
  }

  lemma RestartKeepsSome(s: State, t: Target, thread: Thread)
    requires thread in Restart(s, t).executions
    ensures thread in s.executions && Restart(s, t).executions[thread] == s.executions[thread]
  {
  }

  lemma PollGoesOn(s: State, poller: Thread, thread: Thread)
    requires thread in ExecutePoll(s, poller).executions
    ensures thread in s.executions && SameHolder(ExecutePoll(s, poller).executions[thread], s.executions[thread])
  {
  }

  lemma RunGoesOn(s: State, runner: Thread, checksPass: bool, thread: Thread)
    requires thread in ExecuteRun(s, runner, checksPass).executions
    ensures thread in s.executions && SameHolder(ExecuteRun(s, runner, checksPass).executions[thread], s.executions[thread])
  {
  }

  lemma EndGoesOn(s: State, ender: Thread, thread: Thread)
    requires thread in ExecuteEnd(s, ender).executions
    ensures thread in s.executions && ExecuteEnd(s, ender).executions[thread] == s.executions[thread]
  {
  }

  lemma StartGoesOn(s: State, starter: Thread, t: Target, n: Nonce, f: Feature, d: Digest, u: User, session: Session,
                    thread: Thread)
    requires thread in s.executions && thread in ExecuteStart(s, starter, t, n, f, d, u, session).executions
    ensures ExecuteStart(s, starter, t, n, f, d, u, session).executions[thread] == s.executions[thread]
  {
  }

  lemma ThreadsGoOn(s: State, step: Step, thread: Thread)
    requires MovesThreads(step) && thread in Do(s, step).executions && (step.DoExecuteStart? ==> thread in s.executions)
    ensures thread in s.executions && SameHolder(Do(s, step).executions[thread], s.executions[thread])
  {
    match step
    case DoRestart(t) => RestartKeepsSome(s, t, thread);
    case DoExecutePoll(k) => PollGoesOn(s, k, thread);
    case DoExecuteRun(k, checksPass) => RunGoesOn(s, k, checksPass, thread);
    case DoExecuteEnd(k) => EndGoesOn(s, k, thread);
    case DoExecuteStart(k, t, n, f, d, u, session) => StartGoesOn(s, k, t, n, f, d, u, session, thread);
  }

  /** Every thread's binding holds the generation that its own start read. */
  lemma {:induction false} ThreadReadItsGeneration(steps: seq<Step>, thread: Thread) returns (i: nat)
    requires thread in Run(steps).executions
    ensures i < |steps| && steps[i].DoExecuteStart? && steps[i].thread == thread
    ensures Run(steps).executions[thread].binding.generation == Run(steps[..i]).generation
  {
    var rest, last := steps[..|steps| - 1], steps[|steps| - 1];
    var s := Run(rest);
    if last.DoExecuteStart? && thread !in s.executions {
      ThreadStarts(s, last, thread);
      i := |rest|;
    } else {
      if MovesThreads(last) {
        ThreadsGoOn(s, last, thread);
      } else {
        OthersKeepThreads(s, last);
      }
      i := ThreadReadItsGeneration(rest, thread);
      assert rest[..i] == steps[..i];
    }
  }

  // ---------------------------------------------------------------- where a statement's argument was read

  predicate MovesArmed(step: Step) {
    step.DoAcceptRead? || step.DoRestart?
  }

  predicate IsBrokerStep(step: Step) {
    step.DoPrepareIssue? || step.DoPrepareSubmit? || step.DoPrepareFinish? || step.DoCancel? || step.DoAcceptCheck?
    || step.DoAcceptApply?
  }

  lemma BrokerKeepsArmed(s: State, step: Step)
    requires IsBrokerStep(step)
    ensures Do(s, step).armed == s.armed
  {
    match step
    case DoAcceptApply(v, g) => ApplyLogs(s, v, g);
    case _ =>
  }

  lemma PollKeepsArmed(s: State, thread: Thread)
    ensures ExecutePoll(s, thread).armed == s.armed
  {
  }

  lemma ThreadStepKeepsArmed(s: State, step: Step)
    requires MovesThreads(step) && !step.DoRestart?
    ensures Do(s, step).armed == s.armed
  {
    match step
    case DoExecutePoll(thread) => PollKeepsArmed(s, thread);
    case _ =>
  }

  /** One table and one event change. */
  lemma RowsAndEvent(s: State, t: Target, rows: Table, e: Event)
    ensures var s' := Logged(WithRows(s, t, rows), e);
      s'.armed == s.armed && s'.log == Then(s.log, e) && s'.generation == s.generation && s'.executions == s.executions
  {
  }

  lemma ApplyShape(s: State, v: Verdict, g: Generation)
    requires (v, g) in s.armed && Undecided(Rows(s, v.target), v.nonce, v.binding.(generation := g), s.now)
    ensures var b := v.binding.(generation := g);
      var expiresAt, acked := Rows(s, v.target)[v.nonce].expiresAt, s.(acks := s.acks + {(v.nonce, v.decision)});
      AcceptApply(s, v, g) ==
        if v.decision.Approved? then
          Logged(WithRows(acked, v.target, Approve(Rows(s, v.target), v.nonce, b, s.now)),
                 Granted(v.nonce, v.target, b, s.now, expiresAt, v.binding.generation, g, s.generation))
        else
          Logged(WithRows(acked, v.target, CancelBound(Rows(s, v.target), v.nonce, b, s.now)),
                 Refused(v.nonce, v.target, b, s.now, expiresAt, v.binding.generation, g, s.generation))
  {
  }

  /** The statement leaves threads and arguments alone, and logs what it did under the generation in force. */
  lemma ApplyLogs(s: State, v: Verdict, g: Generation)
    ensures AcceptApply(s, v, g).armed == s.armed
    ensures var log := AcceptApply(s, v, g).log;
      log == s.log || (log.Then? && log.before == s.log && (log.event.Granted? || log.event.Refused?) && (v, g) in s.armed
                       && log.event.binding == v.binding.(generation := g) && log.event.inForce == s.generation)
  {
    var b := v.binding.(generation := g);
    var rows := Rows(s, v.target);
    if (v, g) in s.armed && Undecided(rows, v.nonce, b, s.now) {
      ApplyShape(s, v, g);
      var expiresAt, acked := rows[v.nonce].expiresAt, s.(acks := s.acks + {(v.nonce, v.decision)});
      if v.decision.Approved? {
        RowsAndEvent(acked, v.target, Approve(rows, v.nonce, b, s.now),
                     Granted(v.nonce, v.target, b, s.now, expiresAt, v.binding.generation, g, s.generation));
      } else {
        RowsAndEvent(acked, v.target, CancelBound(rows, v.nonce, b, s.now),
                     Refused(v.nonce, v.target, b, s.now, expiresAt, v.binding.generation, g, s.generation));
      }
    }
  }

  lemma OthersKeepArmed(s: State, step: Step)
    requires !MovesArmed(step)
    ensures Do(s, step).armed == s.armed
  {
    if IsBrokerStep(step) {
      BrokerKeepsArmed(s, step);
    } else if MovesThreads(step) {
      ThreadStepKeepsArmed(s, step);
    }
  }

  lemma ArmedStep(s: State, step: Step, p: (Verdict, Generation))
    requires MovesArmed(step) && p in Do(s, step).armed
    ensures p in s.armed || (step == DoAcceptRead(p.0) && p.1 == s.generation)
  {
  }

  /** Every statement argument is the generation that an _accept thread read for this verdict. */
  lemma {:induction false} ArmedReadItsGeneration(steps: seq<Step>, p: (Verdict, Generation)) returns (i: nat)
    requires p in Run(steps).armed
    ensures i < |steps| && steps[i] == DoAcceptRead(p.0) && p.1 == Run(steps[..i]).generation
  {
    var rest, last := steps[..|steps| - 1], steps[|steps| - 1];
    if MovesArmed(last) {
      ArmedStep(Run(rest), last, p);
    } else {
      OthersKeepArmed(Run(rest), last);
    }
    if p in Run(rest).armed {
      i := ArmedReadItsGeneration(rest, p);
      assert rest[..i] == steps[..i];
    } else {
      i := |rest|;
    }
  }

  // ---------------------------------------------------------------- where an event was logged

  /** The steps that can log a settlement, a claim or an execution. */
  predicate LogsDeeds(step: Step) {
    step.DoAcceptApply? || step.DoExecutePoll? || step.DoExecuteRun?
  }

  /** The history is the same, or a prompt, a click or a cancellation was added. */
  ghost predicate LogsNoDeed(s: State, s': State) {
    s'.log == s.log
    || (s'.log.Then? && s'.log.before == s.log && (s'.log.event.Shown? || s'.log.event.Recorded? || s'.log.event.Cancelled?))
  }

  predicate IsApproving(step: Step) {
    step.DoApproverCreate? || step.DoPromptShown? || step.DoPromptReturns? || step.DoClick? || step.DoMarkGranted?
    || step.DoResend?
  }

  lemma ApprovingLogsNoDeed(s: State, step: Step)
    requires IsApproving(step)
    ensures LogsNoDeed(s, Do(s, step))
  {
  }

  lemma BrokerLogsNoDeed(s: State, step: Step)
    requires IsBrokerStep(step) && !step.DoAcceptApply?
    ensures LogsNoDeed(s, Do(s, step))
  {
  }

  lemma ThreadsLogNoDeed(s: State, step: Step)
    requires MovesThreads(step) && !LogsDeeds(step)
    ensures LogsNoDeed(s, Do(s, step))
  {
  }

  lemma OthersLogNoDeed(s: State, step: Step)
    requires !LogsDeeds(step)
    ensures LogsNoDeed(s, Do(s, step))
  {
    if IsApproving(step) {
      ApprovingLogsNoDeed(s, step);
    } else if IsBrokerStep(step) {
      BrokerLogsNoDeed(s, step);
    } else if MovesThreads(step) {
      ThreadsLogNoDeed(s, step);
    }
  }

  lemma PollLogs(s: State, thread: Thread)
    ensures var log := ExecutePoll(s, thread).log;
      log == s.log || (log.Then? && log.before == s.log && log.event.Claimed? && thread in s.executions
                       && log.event.binding == s.executions[thread].binding && log.event.inForce == s.generation)
  {
  }

  lemma RunLogs(s: State, thread: Thread, checksPass: bool)
    ensures var log := ExecuteRun(s, thread, checksPass).log;
      log == s.log || (log.Then? && log.before == s.log && log.event.Executed? && thread in s.executions
                       && s.executions[thread].phase.Sealed? && s.executions[thread].nonce == log.event.nonce)
  {
  }

  lemma StepLogs(s: State, step: Step)
    ensures Do(s, step).log == s.log || (Do(s, step).log.Then? && Do(s, step).log.before == s.log)
  {
    match step
    case DoExecutePoll(thread) => PollLogs(s, thread);
    case DoExecuteRun(thread, ok) => RunLogs(s, thread, ok);
    case DoAcceptApply(v, g) => ApplyLogs(s, v, g);
    case _ => OthersLogNoDeed(s, step);
  }

  /** The step that added an event to the history. */
  lemma {:induction false} LoggedAt(steps: seq<Step>, at: Log) returns (p: nat)
    requires IsPrefix(at, Run(steps).log) && at.Then?
    ensures p < |steps| && Run(steps[..p]).log == at.before && Do(Run(steps[..p]), steps[p]).log == at
  {
    var rest, last := steps[..|steps| - 1], steps[|steps| - 1];
    StepLogs(Run(rest), last);
    if Run(steps).log == at && Run(rest).log != at {
      p := |rest|;
    } else {
      p := LoggedAt(rest, at);
      assert rest[..p] == steps[..p];
    }
  }

  // ---------------------------------------------------------------- the exact condition

  /** Every claim in every run: the polling thread started at step `i` and claimed at step `p`, and the generation it
      claimed under is the one in force exactly when no step between bumped it. */
  lemma ClaimIsCurrentExactly(steps: seq<Step>, at: Log) returns (i: nat, p: nat, thread: Thread)
    requires IsPrefix(at, Run(steps).log) && at.Then? && at.event.Claimed?
    ensures i < p < |steps| && steps[p] == DoExecutePoll(thread) && Do(Run(steps[..p]), steps[p]).log == at
    ensures steps[i].DoExecuteStart? && steps[i].thread == thread
    ensures at.event.inForce == at.event.binding.generation <==> forall j | i <= j < p :: !steps[j].BumpGeneration?
  {
    p := LoggedAt(steps, at);
    assert at.before < at;
    var before := steps[..p];
    if !LogsDeeds(steps[p]) { OthersLogNoDeed(Run(before), steps[p]); }
    if steps[p].DoExecuteRun? { RunLogs(Run(before), steps[p].thread, steps[p].checksPass); }
    if steps[p].DoAcceptApply? { ApplyLogs(Run(before), steps[p].v, steps[p].g); }
    thread := steps[p].thread;
    PollLogs(Run(before), thread);
    i := ThreadReadItsGeneration(before, thread);
    assert before[..i] == steps[..i];
    CurrentExactlyWhenNotBumped(before, i, at.event.binding.generation);
    assert forall j | i <= j < p :: before[j] == steps[j];
  }

  /** Every grant in every run: the statement's generation was read at step `i` and the row changed at step `p`, and
      the generation granted under is the one in force exactly when no step between bumped it. */
  lemma GrantIsCurrentExactly(steps: seq<Step>, at: Log) returns (i: nat, p: nat, v: Verdict, g: Generation)
    requires IsPrefix(at, Run(steps).log) && at.Then? && at.event.Granted?
    ensures i < p < |steps| && steps[p] == DoAcceptApply(v, g) && Do(Run(steps[..p]), steps[p]).log == at
    ensures steps[i] == DoAcceptRead(v) && at.event.binding == v.binding.(generation := g)
    ensures at.event.inForce == at.event.binding.generation <==> forall j | i <= j < p :: !steps[j].BumpGeneration?
  {
    p := LoggedAt(steps, at);
    assert at.before < at;
    var before := steps[..p];
    if !LogsDeeds(steps[p]) { OthersLogNoDeed(Run(before), steps[p]); }
    if steps[p].DoExecuteRun? { RunLogs(Run(before), steps[p].thread, steps[p].checksPass); }
    if steps[p].DoExecutePoll? { PollLogs(Run(before), steps[p].thread); }
    v, g := steps[p].v, steps[p].g;
    ApplyLogs(Run(before), v, g);
    i := ArmedReadItsGeneration(before, (v, g));
    assert before[..i] == steps[..i];
    CurrentExactlyWhenNotBumped(before, i, g);
    assert forall j | i <= j < p :: before[j] == steps[j];
  }
}
