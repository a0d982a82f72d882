/**
 How many operations run at once, and two runs that show what the safety theorem leaves open: the policy
 generation can move on before a handler acts, and a cancellation can come after the claim.
 */
module ProtocolTraces {
  import opened Collections
  import opened Capabilities
  import opened ApprovalLog
  import opened Protocol
  import opened ProtocolGenerations

  // ---------------------------------------------------------------- the execution slots

  /** Starting adds one holder, and only while a slot is free. */
  lemma HoldersAfter(s: State, thread: Thread, x: Execution, t: Target)
    requires thread !in s.executions
    ensures Holders(s.(executions := s.executions[thread := x]), t) == Holders(s, t) + if x.target == t then {thread} else {}
  {
  }

  lemma StartingNeedsASlot(s: State, thread: Thread, t: Target, nonce: Nonce, f: Feature, digest: Digest, u: User,
                           session: Session, other: Target)
    requires |Holders(s, other)| <= MAX_CONCURRENT
    ensures |Holders(ExecuteStart(s, thread, t, nonce, f, digest, u, session), other)| <= MAX_CONCURRENT
  {
    if Enabled(s, t, f) && thread !in s.executions && SlotsUsed(s, t) < MAX_CONCURRENT {
      var x := Execution(t, nonce, Binding(f, digest, u, session, s.generation), s.now + WAIT_SECONDS, Waiting);
      HoldersAfter(s, thread, x, other);
    }
  }

  lemma HoldersShrink(s: State, step: Step, t: Target)
    requires !step.DoExecuteStart?
    ensures Holders(Do(s, step), t) <= Holders(s, t)
  {
    if MovesThreads(step) {
      forall k | k in Holders(Do(s, step), t) ensures k in Holders(s, t) {
        ThreadsGoOn(s, step, k);
      }
    } else {
      OthersKeepThreads(s, step);
    }
  }

  lemma HoldersStayBounded(s: State, step: Step, t: Target)
    requires |Holders(s, t)| <= MAX_CONCURRENT
    ensures |Holders(Do(s, step), t)| <= MAX_CONCURRENT
  {
    match step
    case DoExecuteStart(k, target, n, f, d, u, session) => StartingNeedsASlot(s, k, target, n, f, d, u, session, t);
    case _ =>
      HoldersShrink(s, step, t);
      SubsetSize(Holders(Do(s, step), t), Holders(s, t));
  }

  /** In every run each broker has at most four operations in flight, waiting ones included. */
  lemma {:induction false} SlotsAreNeverExceeded(steps: seq<Step>, t: Target)
    ensures SlotsUsed(Run(steps), t) <= 4
  {
    if steps == [] {
      assert Holders(Run(steps), t) == {};
    } else {
      SlotsAreNeverExceeded(steps[..|steps| - 1], t);
      HoldersStayBounded(Run(steps[..|steps| - 1]), steps[|steps| - 1], t);
    }
  }

  // ---------------------------------------------------------------- one run, step by step

  lemma {:induction false} Extend(steps: seq<Step>, from: State, step: Step, to: State)
    requires Run(steps) == from && Do(from, step) == to
    ensures Run(steps + [step]) == to
  {
    assert (steps + [step])[..|steps|] == steps;
  }

  const REQUEST := Request("list", "")
  const SUMMARY := RenderSummary(Docker, REQUEST)
  const BINDING := Binding(Docker, DigestOf(Docker, REQUEST), 7, 1, 0)
  const SUBMISSION := Submission(5, DockerBroker, BINDING, REQUEST, SUMMARY)
  const VERDICT := Verdict(5, DockerBroker, BINDING, Approved)

  // The states of one run: enabled, issued, submitted, registered, shown to user 7, delivered, clicked, checked, armed
  // with the statement's arguments, started, overtaken by a bump, granted, claimed.
  const ENABLED: State := Init.(features := {Docker}, approvers := {7})

  const ISSUED: State := ENABLED.(
    docker := map[5 := Capability(BINDING, REQUEST, 300, false, false)],
    issued := map[5 := Ticket(DockerBroker, BINDING, REQUEST)], preparing := {5}, unsent := {5})

  const SUBMITTED: State := ISSUED.(unsent := {}, submissions := {SUBMISSION})

  const REGISTERED: State := SUBMITTED.(
    approvals := map[5 := Approval(9, DockerBroker, BINDING, SUMMARY, 300, None, false, false)], sending := map[5 := false])

  const SHOWN: State := REGISTERED.(sending := map[5 := true], log := Then(Start, Shown(5, 7, SUMMARY, BINDING.digest)))

  const DELIVERED: State := SHOWN.(
    sending := map[], pendingReplies := {5},
    approvals := map[5 := Approval(9, DockerBroker, BINDING, SUMMARY, 300, None, true, false)])

  const CLICKED: State := DELIVERED.(
    approvals := map[5 := Approval(9, DockerBroker, BINDING, SUMMARY, 300, Some(Approved), true, false)],
    verdicts := {VERDICT}, log := Then(SHOWN.log, Recorded(VERDICT, 7, 0, 300)))

  const CHECKED: State := CLICKED.(checked := {VERDICT})

  const ARMED: State := CHECKED.(armed := {(VERDICT, 0)})

  const STARTED: State := ARMED.(executions := map[3 := Execution(DockerBroker, 5, BINDING, WAIT_SECONDS, Waiting)])

  const OVERTAKEN: State := STARTED.(generation := 1)

  const GRANTED: State := OVERTAKEN.(
    docker := map[5 := Capability(BINDING, REQUEST, 300, true, false)], acks := {(5, Approved)},
    log := Then(CLICKED.log, Granted(5, DockerBroker, BINDING, 0, 300, 0, 0, 1)))

  const CLAIMED: State := GRANTED.(
    docker := map[5 := Capability(BINDING, REQUEST, 300, true, true)],
    executions := map[3 := Execution(DockerBroker, 5, BINDING, WAIT_SECONDS, Sealed(REQUEST))],
    log := Then(GRANTED.log, Claimed(5, DockerBroker, BINDING, REQUEST, 0, 300, 1)))

  lemma EnabledIsReached() returns (steps: seq<Step>)
    ensures Run(steps) == ENABLED
  {
    var first := SetFeatures({Docker});
    Extend([], Init, first, Init.(features := {Docker}));
    Extend([] + [first], Init.(features := {Docker}), SetApprovers({7}), ENABLED);
    steps := [] + [first] + [SetApprovers({7})];
  }

  lemma Issues()
    ensures Do(ENABLED, DoPrepareIssue(DockerBroker, Docker, REQUEST, 7, 1, 5)) == ISSUED
  {
    assert Issue(map[], 5, BINDING, REQUEST, 0) == ISSUED.docker;
  }

  lemma Submits()
    ensures Do(ISSUED, DoPrepareSubmit(5)) == SUBMITTED
  {
  }

  lemma Registers()
    ensures Do(SUBMITTED, DoApproverCreate(SUBMISSION, 9, true)) == REGISTERED
  {
  }

  lemma Shows()
    ensures Do(REGISTERED, DoPromptShown(5)) == SHOWN
  {
  }

  lemma Delivers()
    ensures Do(SHOWN, DoPromptReturns(5, true)) == DELIVERED
  {
  }

  lemma Clicks()
    ensures Do(DELIVERED, DoClick(5, 9, 7, Approved)) == CLICKED
  {
  }

  lemma Checks()
    ensures Do(CLICKED, DoAcceptCheck(VERDICT)) == CHECKED
  {
  }

  lemma Arms()
    ensures Do(CHECKED, DoAcceptRead(VERDICT)) == ARMED
  {
  }

  lemma Starts()
    ensures Do(ARMED, DoExecuteStart(3, DockerBroker, 5, Docker, BINDING.digest, 7, 1)) == STARTED
  {
    assert Holders(ARMED, DockerBroker) == {};
  }

  lemma Grants()
    ensures Do(OVERTAKEN, DoAcceptApply(VERDICT, 0)) == GRANTED
  {
    assert VERDICT.binding.(generation := 0) == BINDING;
  }

  lemma Claims()
    ensures Do(GRANTED, DoExecutePoll(3)) == CLAIMED
  {
  }

  lemma DeliveredIsReached() returns (steps: seq<Step>)
    ensures Run(steps) == DELIVERED
  {
    var issue, create := DoPrepareIssue(DockerBroker, Docker, REQUEST, 7, 1, 5), DoApproverCreate(SUBMISSION, 9, true);
    var s0 := EnabledIsReached();
    Issues(); Extend(s0, ENABLED, issue, ISSUED);
    var s1 := s0 + [issue];
    Submits(); Extend(s1, ISSUED, DoPrepareSubmit(5), SUBMITTED);
    var s2 := s1 + [DoPrepareSubmit(5)];
    Registers(); Extend(s2, SUBMITTED, create, REGISTERED);
    var s3 := s2 + [create];
    Shows(); Extend(s3, REGISTERED, DoPromptShown(5), SHOWN);
    var s4 := s3 + [DoPromptShown(5)];
    Delivers(); Extend(s4, SHOWN, DoPromptReturns(5, true), DELIVERED);
    steps := s4 + [DoPromptReturns(5, true)];
  }

  lemma ArmedIsReached() returns (steps: seq<Step>)
    ensures Run(steps) == ARMED
  {
    var s0 := DeliveredIsReached();
    Clicks(); Extend(s0, DELIVERED, DoClick(5, 9, 7, Approved), CLICKED);
    var s1 := s0 + [DoClick(5, 9, 7, Approved)];
    Checks(); Extend(s1, CLICKED, DoAcceptCheck(VERDICT), CHECKED);
    var s2 := s1 + [DoAcceptCheck(VERDICT)];
    Arms(); Extend(s2, CHECKED, DoAcceptRead(VERDICT), ARMED);
    steps := s2 + [DoAcceptRead(VERDICT)];
  }

  lemma StartedIsReached() returns (steps: seq<Step>)
    ensures Run(steps) == STARTED
  {
    var start := DoExecuteStart(3, DockerBroker, 5, Docker, BINDING.digest, 7, 1);
    steps := ArmedIsReached();
    Starts(); Extend(steps, ARMED, start, STARTED);
    steps := steps + [start];
  }

  lemma Overtakes(s: State)
    ensures Do(s, BumpGeneration) == s.(generation := s.generation + 1)
  {
  }

  lemma OvertakenIsReached() returns (steps: seq<Step>)
    ensures Run(steps) == OVERTAKEN
  {
    steps := StartedIsReached();
    Overtakes(STARTED); Extend(steps, STARTED, BumpGeneration, OVERTAKEN);
    steps := steps + [BumpGeneration];
  }

  lemma ClaimedIsReached() returns (steps: seq<Step>)
    ensures Run(steps) == CLAIMED
  {
    var s0 := OvertakenIsReached();
    Grants(); Extend(s0, OVERTAKEN, DoAcceptApply(VERDICT, 0), GRANTED);
    var s1 := s0 + [DoAcceptApply(VERDICT, 0)];
    Claims(); Extend(s1, GRANTED, DoExecutePoll(3), CLAIMED);
    steps := s1 + [DoExecutePoll(3)];
  }

  /** The claimed request runs, whatever was added to the history since the claim. */
  lemma RunsAfter(s: State)
    requires s.executions == CLAIMED.executions
    ensures Do(s, DoExecuteRun(3, true)).log == Then(s.log, Executed(5, DockerBroker, BINDING, REQUEST))
  {
  }

  lemma Cancels()
    ensures Do(CLAIMED, DoCancel(DockerBroker, 5)).executions == CLAIMED.executions
    ensures Do(CLAIMED, DoCancel(DockerBroker, 5)).log == Then(CLAIMED.log, Cancelled(5))
  {
  }

  /** An operation can be granted, claimed and executed after its policy generation was superseded: the
      handlers compare the row with a generation they read before they waited. */
  lemma ExecutedUnderSupersededGeneration() returns (steps: seq<Step>)
    ensures Run(steps).log == Then(CLAIMED.log, Executed(5, DockerBroker, BINDING, REQUEST))
    ensures GRANTED.log.event.inForce == CLAIMED.log.event.inForce == BINDING.generation + 1
  {
    var s0 := ClaimedIsReached();
    RunsAfter(CLAIMED);
    Extend(s0, CLAIMED, DoExecuteRun(3, true), Do(CLAIMED, DoExecuteRun(3, true)));
    steps := s0 + [DoExecuteRun(3, true)];
  }

  /** A cancellation between the claim and the run does not stop the run: it ends at the claim. */
  lemma CancelledAfterClaimStillExecutes() returns (steps: seq<Step>)
    ensures Run(steps).log == Then(Then(CLAIMED.log, Cancelled(5)), Executed(5, DockerBroker, BINDING, REQUEST))
  {
    var s0 := ClaimedIsReached();
    var cancelled := Do(CLAIMED, DoCancel(DockerBroker, 5));
    Cancels(); Extend(s0, CLAIMED, DoCancel(DockerBroker, 5), cancelled);
    var s1 := s0 + [DoCancel(DockerBroker, 5)];
    RunsAfter(cancelled); Extend(s1, cancelled, DoExecuteRun(3, true), Do(cancelled, DoExecuteRun(3, true)));
    steps := s1 + [DoExecuteRun(3, true)];
  }
}
