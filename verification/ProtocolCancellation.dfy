/**
 What can still happen to a nonce that was claimed, refused or cancelled: it can execute exactly when a handler
 holds its claim.
 */
module ProtocolCancellation {
  import opened Capabilities
  import opened ApprovalLog
  import opened Protocol
  import opened ProtocolGenerations
  import opened ProtocolSafety

  predicate Holds(s: State, thread: Thread, n: Nonce) {
    thread in s.executions && s.executions[thread].nonce == n && s.executions[thread].phase.Sealed?
  }

  /** A handler thread has claimed the nonce and not run it yet. */
  ghost predicate ClaimIsHeld(s: State, n: Nonce) {
    exists thread :: Holds(s, thread, n)
  }

  // ---------------------------------------------------------------- where a held claim comes from

  lemma StartHoldsNothing(s: State, step: Step, thread: Thread, n: Nonce)
    requires step.DoExecuteStart? && Holds(Do(s, step), thread, n)
    ensures Holds(s, thread, n)
  {
  }

  lemma RestartHoldsLess(s: State, t: Target, thread: Thread, n: Nonce)
    requires Holds(Restart(s, t), thread, n)
    ensures Holds(s, thread, n)
  {
    RestartKeepsSome(s, t, thread);
  }

  lemma RunHoldsLess(s: State, runner: Thread, checksPass: bool, thread: Thread, n: Nonce)
    requires Holds(ExecuteRun(s, runner, checksPass), thread, n)
    ensures Holds(s, thread, n)
  {
  }

  lemma EndHoldsLess(s: State, ender: Thread, thread: Thread, n: Nonce)
    requires Holds(ExecuteEnd(s, ender), thread, n)
    ensures Holds(s, thread, n)
  {
  }

  lemma PollHoldsWhatItClaims(s: State, poller: Thread, thread: Thread, n: Nonce)
    requires Holds(ExecutePoll(s, poller), thread, n)
    ensures Holds(s, thread, n)
      || (thread in s.executions && s.executions[thread].nonce == n
          && Claimable(Rows(s, s.executions[thread].target), n, s.executions[thread].binding, s.now))
  {
  }

  lemma ClosedIsNotClaimable(s: State, t: Target, n: Nonce, b: Binding)
    requires Inv(s) && ClosedIn(s.log, n)
    ensures !Claimable(Rows(s, t), n, b, s.now)
  {
    RowsKnown(s, t);
  }

  lemma OtherThreadsHoldLess(s: State, step: Step, thread: Thread, n: Nonce)
    requires MovesThreads(step) && !step.DoExecutePoll? && Holds(Do(s, step), thread, n)
    ensures Holds(s, thread, n)
  {
    match step
    case DoExecuteStart(_, _, _, _, _, _, _) => StartHoldsNothing(s, step, thread, n);
    case DoRestart(t) => RestartHoldsLess(s, t, thread, n);
    case DoExecuteRun(k, ok) => RunHoldsLess(s, k, ok, thread, n);
    case DoExecuteEnd(k) => EndHoldsLess(s, k, thread, n);
  }

  lemma NoNewClaim(s: State, step: Step, thread: Thread, n: Nonce)
    requires forall t, b :: !Claimable(Rows(s, t), n, b, s.now)
    requires Holds(Do(s, step), thread, n)
    ensures Holds(s, thread, n)
  {
    if step.DoExecutePoll? {
      PollHoldsWhatItClaims(s, step.thread, thread, n);
    } else if MovesThreads(step) {
      OtherThreadsHoldLess(s, step, thread, n);
    } else {
      OthersKeepThreads(s, step);
    }
  }

  // ---------------------------------------------------------------- where an execution comes from

  lemma OnlyHeldClaimsExecute(s: State, step: Step, n: Nonce)
    requires ExecutedIn(Do(s, step).log, n) && !ExecutedIn(s.log, n)
    ensures ClaimIsHeld(s, n)
  {
    match step
    case DoExecuteRun(k, ok) =>
      RunLogs(s, k, ok);
      assert Holds(s, k, n);
    case DoExecutePoll(k) => PollLogs(s, k);
    case DoAcceptApply(v, g) => ApplyLogs(s, v, g);
    case _ => OthersLogNoDeed(s, step);
  }

  // ---------------------------------------------------------------- the exact condition

  lemma NothingHeldStays(s: State, step: Step, n: Nonce)
    requires Inv(s) && ClosedIn(s.log, n) && !ExecutedIn(s.log, n) && !ClaimIsHeld(s, n)
    ensures ClosedIn(Do(s, step).log, n) && !ExecutedIn(Do(s, step).log, n) && !ClaimIsHeld(Do(s, step), n)
  {
    forall t, b ensures !Claimable(Rows(s, t), n, b, s.now) {
      ClosedIsNotClaimable(s, t, n, b);
    }
    StepLogs(s, step);
    if ExecutedIn(Do(s, step).log, n) {
      OnlyHeldClaimsExecute(s, step, n);
    }
    if ClaimIsHeld(Do(s, step), n) {
      var thread :| Holds(Do(s, step), thread, n);
      NoNewClaim(s, step, thread, n);
    }
  }

  lemma {:induction false} NothingHeldNothingRuns(steps: seq<Step>, more: seq<Step>, n: Nonce)
    requires ClosedIn(Run(steps).log, n) && !ExecutedIn(Run(steps).log, n) && !ClaimIsHeld(Run(steps), n)
    ensures ClosedIn(Run(steps + more).log, n)
    ensures !ExecutedIn(Run(steps + more).log, n) && !ClaimIsHeld(Run(steps + more), n)
  {
    if more == [] {
      assert steps + more == steps;
    } else {
      var rest, last := more[..|more| - 1], more[|more| - 1];
      NothingHeldNothingRuns(steps, rest, n);
      assert (steps + more)[..|steps + more| - 1] == steps + rest;
      RunKeeps(steps + rest);
      NothingHeldStays(Run(steps + rest), last, n);
    }
  }

  lemma HeldClaimCanRun(steps: seq<Step>, thread: Thread, n: Nonce)
    requires Holds(Run(steps), thread, n)
    ensures ExecutedIn(Run(steps + [DoExecuteRun(thread, true)]).log, n)
  {
    var s := Run(steps);
    RunKeeps(steps);
    var x := s.executions[thread];
    var claim := FindClaim(s.log, n, x.target, x.binding, x.phase.request);
    PrefixIsJustified(claim, s.log);
    assert (steps + [DoExecuteRun(thread, true)])[..|steps|] == steps;
  }

  /** A nonce that is closed and has not executed, a cancelled one for instance, executes in some continuation of the
      run if and only if a handler holds its claim. */
  lemma ClosedCanRunExactlyWhenHeld(steps: seq<Step>, n: Nonce)
    requires ClosedIn(Run(steps).log, n) && !ExecutedIn(Run(steps).log, n)
    ensures (exists more: seq<Step> :: ExecutedIn(Run(steps + more).log, n)) <==> ClaimIsHeld(Run(steps), n)
  {
    if ClaimIsHeld(Run(steps), n) {
      var thread :| Holds(Run(steps), thread, n);
      HeldClaimCanRun(steps, thread, n);
    } else {
      forall more: seq<Step> ensures !ExecutedIn(Run(steps + more).log, n) {
        NothingHeldNothingRuns(steps, more, n);
      }
    }
  }
}
