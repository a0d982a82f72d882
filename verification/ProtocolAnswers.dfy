/**
 What a caller that is told "prepared" can rely on, and what the restart of a broker loses
 (execution-broker/src/broker/server.py:101-176, approver.py:171-189).
 */
module ProtocolAnswers {
  import opened Capabilities
  import opened ApprovalLog
  import opened Protocol
  import opened ProtocolSafety
  import opened ProtocolCancellation
  import opened ProtocolGenerations
  import opened ProtocolWaiting

  // ---------------------------------------------------------------- who touches what the approver keeps and gets

  /** Submissions, the approver's rows and its "pending" answers. */
  ghost predicate SamePapers(s: State, s': State) {
    s'.submissions == s.submissions && s'.approvals == s.approvals && s'.pendingReplies == s.pendingReplies
  }

  predicate MovesPapers(step: Step) {
    step.DoPrepareSubmit? || step.DoApproverCreate? || step.DoPromptReturns? || step.DoClick? || step.DoMarkGranted?
    || step.LoseSubmission?
  }

  /** The steps that write a broker's table, a handler's slot or both. */
  predicate AtBroker(step: Step) {
    step.DoPrepareIssue? || step.DoPrepareFinish? || step.DoCancel? || step.DoAcceptApply? || step.DoExecutePoll?
    || step.DoExecuteStart? || step.DoRestart?
  }

  lemma IssueKeepsPapers(s: State, t: Target, f: Feature, r: Request, u: User, session: Session, n: Nonce)
    ensures SamePapers(s, PrepareIssue(s, t, f, r, u, session, n))
  {
  }

  lemma CancelKeepsPapers(s: State, t: Target, n: Nonce)
    ensures SamePapers(s, CancelCapability(s, t, n))
  {
  }

  lemma FinishKeepsPapers(s: State, n: Nonce, answered: bool)
    ensures SamePapers(s, PrepareFinish(s, n, answered))
  {
  }

  lemma WrittenKeepsPapers(s: State, acks: set<(Nonce, Decision)>, t: Target, rows: Table, e: Event)
    ensures SamePapers(s, Logged(WithRows(s.(acks := acks), t, rows), e))
  {
  }

  lemma ApplyKeepsPapers(s: State, v: Verdict, g: Generation)
    ensures SamePapers(s, AcceptApply(s, v, g))
  {
    var rows, b := Rows(s, v.target), v.binding.(generation := g);
    if (v, g) in s.armed && Undecided(rows, v.nonce, b, s.now) {
      var acks, expiresAt := s.acks + {(v.nonce, v.decision)}, rows[v.nonce].expiresAt;
      WrittenKeepsPapers(s, acks, v.target, Approve(rows, v.nonce, b, s.now),
                         Granted(v.nonce, v.target, b, s.now, expiresAt, v.binding.generation, g, s.generation));
      WrittenKeepsPapers(s, acks, v.target, CancelBound(rows, v.nonce, b, s.now),
                         Refused(v.nonce, v.target, b, s.now, expiresAt, v.binding.generation, g, s.generation));
    } else {
      ApplyIdles(s, v, g, v.target);
    }
  }

  lemma ClaimedKeepsPapers(s: State, t: Target, rows: Table, executions: map<Thread, Execution>, e: Event)
    ensures SamePapers(s, Logged(WithRows(s, t, rows).(executions := executions), e))
  {
  }

  lemma PollKeepsPapers(s: State, k: Thread)
    ensures SamePapers(s, ExecutePoll(s, k))
  {
    if IsWaiting(s, k) {
      var x := s.executions[k];
      var rows := Rows(s, x.target);
      if Claimable(rows, x.nonce, x.binding, s.now) {
        var row := rows[x.nonce];
        ClaimedKeepsPapers(s, x.target, Claim(rows, x.nonce, x.binding, s.now),
                           s.executions[k := x.(phase := Sealed(row.request))],
                           Claimed(x.nonce, x.target, x.binding, row.request, s.now, row.expiresAt, s.generation));
      }
    }
  }

  lemma RestartKeepsPapers(s: State, t: Target)
    ensures SamePapers(s, Restart(s, t))
  {
  }

  lemma StartKeepsPapers(s: State, step: Step)
    requires step.DoExecuteStart?
    ensures SamePapers(s, Do(s, step))
  {
  }

  lemma RunKeepsPapers(s: State, k: Thread, checksPass: bool)
    ensures SamePapers(s, ExecuteRun(s, k, checksPass)) && SamePapers(s, ExecuteEnd(s, k))
  {
  }

  lemma ChecksKeepPapers(s: State, v: Verdict)
    ensures SamePapers(s, AcceptCheck(s, v)) && SamePapers(s, AcceptRead(s, v))
  {
  }

  lemma SendingKeepsPapers(s: State, n: Nonce)
    ensures SamePapers(s, PromptShown(s, n)) && SamePapers(s, Resend(s, n))
  {
  }

  lemma BrokerKeepsPapers(s: State, step: Step)
    requires AtBroker(step)
    ensures SamePapers(s, Do(s, step))
  {
    match step
    case DoPrepareIssue(t, f, r, u, session, n) => IssueKeepsPapers(s, t, f, r, u, session, n);
    case DoPrepareFinish(n, answered) => FinishKeepsPapers(s, n, answered);
    case DoCancel(t, n) => CancelKeepsPapers(s, t, n);
    case DoAcceptApply(v, g) => ApplyKeepsPapers(s, v, g);
    case DoExecutePoll(k) => PollKeepsPapers(s, k);
    case DoExecuteStart(_, _, _, _, _, _, _) => StartKeepsPapers(s, step);
    case DoRestart(t) => RestartKeepsPapers(s, t);
  }

  lemma OthersKeepPapers(s: State, step: Step)
    requires !MovesPapers(step)
    ensures SamePapers(s, Do(s, step))
  {
    if AtBroker(step) {
      BrokerKeepsPapers(s, step);
    } else {
      match step
      case DoExecuteRun(k, ok) => RunKeepsPapers(s, k, ok);
      case DoExecuteEnd(k) => RunKeepsPapers(s, k, true);
      case DoAcceptCheck(v) => ChecksKeepPapers(s, v);
      case DoAcceptRead(v) => ChecksKeepPapers(s, v);
      case DoPromptShown(n) => SendingKeepsPapers(s, n);
      case DoResend(n) => SendingKeepsPapers(s, n);
      case _ =>
    }
  }

  // ---------------------------------------------------------------- prepared means shown

  /** The bound user was shown what was sealed under this nonce. */
  ghost predicate ShownToUser(s: State, n: Nonce) {
    n in s.issued &&
    var k := s.issued[n];
    ShownIn(s.log, n, k.binding.user, RenderSummary(k.binding.feature, k.request), k.binding.digest)
  }

  ghost predicate RepliesSound(s: State) {
    forall n | n in s.pendingReplies :: ShownToUser(s, n)
  }

  lemma ReplyWasShown(s: State, n: Nonce)
    requires Inv(s) && n in s.sending && s.sending[n]
    ensures ShownToUser(s, n)
  {
    assert FromTicket(s, n, s.approvals[n].target, s.approvals[n].binding);
  }

  lemma LedgerStays(s: State, step: Step, n: Nonce)
    requires n in s.issued
    ensures n in Do(s, step).issued && Do(s, step).issued[n] == s.issued[n]
  {
    if !step.DoPrepareIssue? {
      OthersKeepLedger(s, step);
    }
  }

  lemma StillShown(s: State, step: Step, n: Nonce)
    requires ShownToUser(s, n)
    ensures ShownToUser(Do(s, step), n)
  {
    ProtocolGenerations.StepLogs(s, step);
    LedgerStays(s, step, n);
  }

  lemma NewReply(s: State, step: Step, n: Nonce)
    requires n in Do(s, step).pendingReplies && n !in s.pendingReplies
    ensures step.DoPromptReturns? && n in s.sending && s.sending[n]
  {
    if !MovesPapers(step) {
      OthersKeepPapers(s, step);
    }
  }

  lemma RepliesKept(s: State, step: Step)
    requires Inv(s) && RepliesSound(s)
    ensures RepliesSound(Do(s, step))
  {
    forall n | n in Do(s, step).pendingReplies ensures ShownToUser(Do(s, step), n) {
      if n !in s.pendingReplies {
        NewReply(s, step, n);
        ReplyWasShown(s, n);
      }
      StillShown(s, step, n);
    }
  }

  lemma {:induction false} RepliesAreSound(steps: seq<Step>)
    ensures RepliesSound(Run(steps))
  {
    if steps != [] {
      RepliesAreSound(steps[..|steps| - 1]);
      RunKeeps(steps[..|steps| - 1]);
      RepliesKept(Run(steps[..|steps| - 1]), steps[|steps| - 1]);
    }
  }

  /** In every run, a broker that answers "prepared" has had its request shown to the bound user, with the summary of what
      it sealed. */
  lemma PreparedWasShown(steps: seq<Step>, n: Nonce)
    requires n in Run(steps).preparing && n !in Do(Run(steps), DoPrepareFinish(n, true)).preparing
    ensures ShownToUser(Run(steps), n)
  {
    RepliesAreSound(steps);
  }

  // ---------------------------------------------------------------- the generation each message carries

  lemma NewSubmission(s: State, step: Step, sub: Submission)
    requires sub in Do(s, step).submissions && sub !in s.submissions
    ensures step == DoPrepareSubmit(sub.nonce) && sub.binding.generation == s.generation
  {
    if !MovesPapers(step) {
      OthersKeepPapers(s, step);
    }
  }

  /** Every submission in the network was made under the generation it names, which its broker read then, not at the issue. */
  lemma {:induction false} SubmissionsWereCurrent(steps: seq<Step>, sub: Submission) returns (p: nat)
    requires sub in Run(steps).submissions
    ensures p < |steps| && steps[p] == DoPrepareSubmit(sub.nonce)
    ensures Run(steps[..p]).generation == sub.binding.generation
  {
    var rest := steps[..|steps| - 1];
    if sub in Run(rest).submissions {
      p := SubmissionsWereCurrent(rest, sub);
      assert steps[..p] == rest[..p];
    } else {
      p := |steps| - 1;
      NewSubmission(Run(rest), steps[p], sub);
    }
  }

  lemma NewApproval(s: State, step: Step, n: Nonce)
    requires n in Do(s, step).approvals && n !in s.approvals
    ensures step.DoApproverCreate? && step.sub.nonce == n && step.sub in s.submissions
    ensures step.sub.binding.generation == s.generation && step.sub.binding.user in s.approvers && step.floorOk
    ensures Do(s, step).approvals[n].binding == step.sub.binding && Do(s, step).approvals[n].expiresAt == s.now + 300
  {
    if !MovesPapers(step) {
      OthersKeepPapers(s, step);
    }
  }

  lemma ApprovalStays(s: State, step: Step, n: Nonce)
    requires n in Do(s, step).approvals && n in s.approvals
    ensures Do(s, step).approvals[n].binding == s.approvals[n].binding
    ensures Do(s, step).approvals[n].expiresAt == s.approvals[n].expiresAt
  {
    if !MovesPapers(step) {
      OthersKeepPapers(s, step);
    }
  }

  /** Step `p` took in this request of a present approver, past the floor, under the generation then in force, for five
      minutes. */
  ghost predicate TakenInAt(steps: seq<Step>, p: nat, n: Nonce, b: Binding, expiresAt: Time) {
    && p < |steps| && steps[p].DoApproverCreate? && steps[p].sub.nonce == n && steps[p].floorOk
    && var s := Run(steps[..p]);
    && steps[p].sub in s.submissions && steps[p].sub.binding == b && b.user in s.approvers && b.generation == s.generation
    && expiresAt == s.now + 300
  }

  lemma TakenInBefore(steps: seq<Step>, rest: seq<Step>, p: nat, n: Nonce, b: Binding, expiresAt: Time)
    requires steps != [] && rest == steps[..|steps| - 1] && TakenInAt(rest, p, n, b, expiresAt)
    ensures TakenInAt(steps, p, n, b, expiresAt)
  {
    assert steps[..p] == rest[..p];
  }

  /** Every request the approver keeps was taken in under the generation in force then, for a user who was an approver then,
      and can be answered for five minutes from that moment. */
  lemma {:induction false} ApprovalsWereCurrent(steps: seq<Step>, n: Nonce) returns (p: nat)
    requires n in Run(steps).approvals
    ensures TakenInAt(steps, p, n, Run(steps).approvals[n].binding, Run(steps).approvals[n].expiresAt)
  {
    var rest, last := steps[..|steps| - 1], steps[|steps| - 1];
    RunLast(steps, rest, last);
    var a := Run(steps).approvals[n];
    if n in Run(rest).approvals {
      p := ApprovalsWereCurrent(rest, n);
      ApprovalStays(Run(rest), last, n);
      TakenInBefore(steps, rest, p, n, a.binding, a.expiresAt);
    } else {
      p := |steps| - 1;
      NewApproval(Run(rest), last, n);
    }
  }

  // ---------------------------------------------------------------- who may ask and who may answer

  lemma NewTicket(s: State, step: Step, n: Nonce)
    requires n in Do(s, step).issued && n !in s.issued
    ensures step.DoPrepareIssue? && step.nonce == n && step.f in s.features && Serves(step.t, step.f)
    ensures Do(s, step).issued[n].target == step.t && Do(s, step).issued[n].binding.feature == step.f
  {
    if !step.DoPrepareIssue? {
      OthersKeepLedger(s, step);
    }
  }

  /** The feature was enabled on this stack and is this broker's to serve. */
  ghost predicate EnabledAt(steps: seq<Step>, p: nat, t: Target, f: Feature) {
    p < |steps| && f in Run(steps[..p]).features && Serves(t, f)
  }

  /** Nothing was ever sealed for a feature that was not enabled at that moment, or by a broker that does not serve it. */
  lemma {:induction false} IssuedWereEnabled(steps: seq<Step>, n: Nonce) returns (p: nat)
    requires n in Run(steps).issued
    ensures EnabledAt(steps, p, Run(steps).issued[n].target, Run(steps).issued[n].binding.feature)
    ensures steps[p].DoPrepareIssue? && steps[p].nonce == n
  {
    var rest, last := steps[..|steps| - 1], steps[|steps| - 1];
    RunLast(steps, rest, last);
    if n in Run(rest).issued {
      p := IssuedWereEnabled(rest, n);
      LedgerStays(Run(rest), last, n);
      assert steps[..p] == rest[..p];
    } else {
      p := |steps| - 1;
      NewTicket(Run(rest), last, n);
    }
  }

  lemma NewCheck(s: State, step: Step, v: Verdict)
    requires v in Do(s, step).checked && v !in s.checked
    ensures step == DoAcceptCheck(v) && v in s.verdicts && v.binding.generation == s.generation
    ensures v.binding.feature in s.features && Serves(v.target, v.binding.feature)
  {
    if AtBroker(step) {
      BrokerKeepsChecks(s, step);
    } else if !step.DoAcceptCheck? {
      OthersKeepChecks(s, step);
    }
  }

  lemma BrokerKeepsChecks(s: State, step: Step)
    requires AtBroker(step)
    ensures Do(s, step).checked <= s.checked
  {
    match step
    case DoPrepareIssue(_, _, _, _, _, _) => StartsKeepChecks(s, step);
    case DoPrepareFinish(n, answered) => FinishKeepsChecks(s, n, answered);
    case DoCancel(t, n) => CancelKeepsChecks(s, t, n);
    case DoAcceptApply(v, g) => ApplyKeepsChecks(s, v, g);
    case DoExecutePoll(k) => PollKeepsChecks(s, k);
    case DoExecuteStart(_, _, _, _, _, _, _) => StartsKeepChecks(s, step);
    case DoRestart(t) => RestartKeepsChecks(s, t);
  }

  lemma OthersKeepChecks(s: State, step: Step)
    requires !AtBroker(step) && !step.DoAcceptCheck?
    ensures Do(s, step).checked == s.checked
  {
  }

  lemma StartsKeepChecks(s: State, step: Step)
    requires step.DoPrepareIssue? || step.DoExecuteStart?
    ensures Do(s, step).checked == s.checked
  {
  }

  lemma CancelKeepsChecks(s: State, t: Target, n: Nonce)
    ensures CancelCapability(s, t, n).checked == s.checked
  {
  }

  lemma FinishKeepsChecks(s: State, n: Nonce, answered: bool)
    ensures PrepareFinish(s, n, answered).checked == s.checked
  {
  }

  lemma WrittenKeepsChecks(s: State, acks: set<(Nonce, Decision)>, t: Target, rows: Table, e: Event)
    ensures Logged(WithRows(s.(acks := acks), t, rows), e).checked == s.checked
  {
  }

  lemma ApplyKeepsChecks(s: State, v: Verdict, g: Generation)
    ensures AcceptApply(s, v, g).checked == s.checked
  {
    var rows, b := Rows(s, v.target), v.binding.(generation := g);
    if (v, g) in s.armed && Undecided(rows, v.nonce, b, s.now) {
      var acks, expiresAt := s.acks + {(v.nonce, v.decision)}, rows[v.nonce].expiresAt;
      WrittenKeepsChecks(s, acks, v.target, Approve(rows, v.nonce, b, s.now),
                         Granted(v.nonce, v.target, b, s.now, expiresAt, v.binding.generation, g, s.generation));
      WrittenKeepsChecks(s, acks, v.target, CancelBound(rows, v.nonce, b, s.now),
                         Refused(v.nonce, v.target, b, s.now, expiresAt, v.binding.generation, g, s.generation));
    } else {
      ApplyIdles(s, v, g, v.target);
    }
  }

  lemma PollKeepsChecks(s: State, k: Thread)
    ensures ExecutePoll(s, k).checked == s.checked
  {
  }

  lemma RestartKeepsChecks(s: State, t: Target)
    ensures Restart(s, t).checked <= s.checked
  {
  }

  /** A verdict past its broker's check was of the generation then in force and of a feature then enabled there. */
  lemma {:induction false} ChecksWereCurrent(steps: seq<Step>, v: Verdict) returns (p: nat)
    requires v in Run(steps).checked
    ensures EnabledAt(steps, p, v.target, v.binding.feature) && steps[p] == DoAcceptCheck(v)
    ensures v in Run(steps[..p]).verdicts && v.binding.generation == Run(steps[..p]).generation
  {
    var rest, last := steps[..|steps| - 1], steps[|steps| - 1];
    RunLast(steps, rest, last);
    if v in Run(rest).checked {
      p := ChecksWereCurrent(rest, v);
      assert steps[..p] == rest[..p];
    } else {
      p := |steps| - 1;
      NewCheck(Run(rest), last, v);
    }
  }

  /** The click that step makes is the bound user's, who is an approver, on the delivered, unexpired prompt of that token. */
  ghost predicate ClicksFor(s: State, step: Step, v: Verdict) {
    && step.DoClick? && step.nonce == v.nonce && step.decision == v.decision && v.nonce in s.approvals
    && var a := s.approvals[v.nonce];
    && step.token == a.token && step.sender == a.binding.user && step.sender in s.approvers
    && a.decision.None? && a.delivered && s.now < a.expiresAt && v == Verdict(v.nonce, a.target, a.binding, step.decision)
  }

  lemma NewDecision(s: State, step: Step, v: Verdict)
    requires RecordedIn(Do(s, step).log, v) && !RecordedIn(s.log, v)
    ensures ClicksFor(s, step, v)
  {
    if AtBroker(step) {
      BrokerRecordsNothing(s, step, v);
    } else if step.DoExecuteRun? {
      ProtocolGenerations.RunLogs(s, step.thread, step.checksPass);
    } else if !step.DoClick? {
      OthersRecordNothing(s, step, v);
    }
  }

  lemma CancelRecordsNothing(s: State, t: Target, n: Nonce, v: Verdict)
    ensures RecordedIn(CancelCapability(s, t, n).log, v) ==> RecordedIn(s.log, v)
  {
  }

  lemma FinishRecordsNothing(s: State, n: Nonce, answered: bool, v: Verdict)
    ensures RecordedIn(PrepareFinish(s, n, answered).log, v) ==> RecordedIn(s.log, v)
  {
    if n in s.issued {
      CancelRecordsNothing(s, s.issued[n].target, n, v);
    }
  }

  lemma StartsLogNothing(s: State, step: Step)
    requires step.DoPrepareIssue? || step.DoExecuteStart?
    ensures Do(s, step).log == s.log
  {
  }

  lemma BrokerRecordsNothing(s: State, step: Step, v: Verdict)
    requires AtBroker(step)
    ensures RecordedIn(Do(s, step).log, v) ==> RecordedIn(s.log, v)
  {
    match step
    case DoPrepareIssue(_, _, _, _, _, _) => StartsLogNothing(s, step);
    case DoPrepareFinish(n, answered) => FinishRecordsNothing(s, n, answered, v);
    case DoCancel(t, n) => CancelRecordsNothing(s, t, n, v);
    case DoAcceptApply(w, g) => ProtocolGenerations.ApplyLogs(s, w, g);
    case DoExecutePoll(k) => ProtocolGenerations.PollLogs(s, k);
    case DoExecuteStart(_, _, _, _, _, _, _) => StartsLogNothing(s, step);
    case DoRestart(t) => RestartLogsNothing(s, t);
  }

  lemma OthersRecordNothing(s: State, step: Step, v: Verdict)
    requires !AtBroker(step) && !step.DoClick? && !step.DoExecuteRun?
    ensures RecordedIn(Do(s, step).log, v) ==> RecordedIn(s.log, v)
  {
  }

  /** Every decision ever recorded was such a click. */
  lemma {:induction false} DecisionsWereClicked(steps: seq<Step>, v: Verdict) returns (p: nat)
    requires RecordedIn(Run(steps).log, v)
    ensures p < |steps| && ClicksFor(Run(steps[..p]), steps[p], v)
  {
    var rest, last := steps[..|steps| - 1], steps[|steps| - 1];
    RunLast(steps, rest, last);
    if RecordedIn(Run(rest).log, v) {
      p := DecisionsWereClicked(rest, v);
      assert steps[..p] == rest[..p];
    } else {
      p := |steps| - 1;
      NewDecision(Run(rest), last, v);
    }
  }

  // ---------------------------------------------------------------- a restart

  /** The broker's handlers of every kind are gone, the other broker's are as they were, and every slot is free again. */
  lemma RestartEndsHandlers(s: State, t: Target)
    ensures var s' := Do(s, DoRestart(t));
      && SlotsUsed(s', t) == 0
      && (forall k | k in s.executions && s.executions[k].target != t :: k in s'.executions && s'.executions[k] == s.executions[k])
      && (forall n | n in s.issued :: (n in s'.preparing <==> n in s.preparing && s.issued[n].target != t)
                                      && (n in s'.unsent <==> n in s.unsent && s.issued[n].target != t))
      && (forall v :: v in s'.checked <==> v in s.checked && v.target != t)
      && (forall v, g :: (v, g) in s'.armed <==> (v, g) in s.armed && v.target != t)
  {
    assert Holders(Do(s, DoRestart(t)), t) == {};
  }

  lemma NobodyHolds(s: State, thread: Thread, n: Nonce)
    requires Inv(s) && Holds(s, thread, n)
    ensures ClosedIn(s.log, n) && !ExecutedIn(s.log, n) && !ClaimIsHeld(Do(s, DoRestart(s.executions[thread].target)), n)
  {
    var t := s.executions[thread].target;
    forall other ensures !Holds(Restart(s, t), other, n) {
      if other in Restart(s, t).executions {
        RestartKeepsSome(s, t, other);
      }
    }
  }

  lemma RestartLogsNothing(s: State, t: Target)
    ensures Do(s, DoRestart(t)).log == s.log
  {
  }

  /** What a handler had claimed and not yet run when its broker restarted is never executed, whatever follows. */
  lemma RestartLosesTheClaim(steps: seq<Step>, thread: Thread, n: Nonce, more: seq<Step>)
    requires Holds(Run(steps), thread, n)
    ensures !ExecutedIn(Run(steps + [DoRestart(Run(steps).executions[thread].target)] + more).log, n)
  {
    var s, t := Run(steps), Run(steps).executions[thread].target;
    RunKeeps(steps);
    var after := steps + [DoRestart(t)];
    assert after[..|steps|] == steps;
    NobodyHolds(s, thread, n);
    RestartLogsNothing(s, t);
    NothingHeldNothingRuns(after, more, n);
  }
}
