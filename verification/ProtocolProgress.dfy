/**
 What the protocol achieves: from any state, an allowed operation that is prepared, shown, approved by its user and
 waited for is executed, exactly as it was shown; a denied one ends its handler; a lost decision is sent again.
 */
module ProtocolProgress {
  import opened Collections
  import opened Capabilities
  import opened ApprovalLog
  import opened Protocol
  import opened ProtocolSafety
  import opened ProtocolWaiting

  /** One operation: who asks for what, and the random names it gets. */
  datatype Operation = Operation(t: Target, f: Feature, r: Request, u: User, session: Session, generation: Generation,
                                 n: Nonce, token: Token, asked: Time)

  function Sealing(o: Operation): Binding {
    Binding(o.f, DigestOf(o.f, o.r), o.u, o.session, o.generation)
  }

  function Summary(o: Operation): string {
    RenderSummary(o.f, o.r)
  }

  function Sent(o: Operation): Submission {
    Submission(o.n, o.t, Sealing(o), o.r, Summary(o))
  }

  function Signed(o: Operation, d: Decision): Verdict {
    Verdict(o.n, o.t, Sealing(o), d)
  }

  /** The feature is enabled at its broker, the user may approve, the policy and the clock stand still. */
  predicate Allowed(s: State, o: Operation) {
    && o.f in s.features && Serves(o.t, o.f) && o.u in s.approvers && s.generation == o.generation && s.now == o.asked
  }

  predicate CanPrepare(s: State, o: Operation) {
    Allowed(s, o) && o.n !in s.issued && o.n !in s.approvals && TokenUnused(s, o.token)
  }

  /** The capability row, as issued. */
  predicate Row(s: State, o: Operation, approved: bool, consumed: bool) {
    o.n in Rows(s, o.t) && Rows(s, o.t)[o.n] == Capability(Sealing(o), o.r, o.asked + 300, approved, consumed)
  }

  predicate Asked(s: State, o: Operation, decision: Option<Decision>, delivered: bool, granted: bool) {
    o.n in s.approvals
    && s.approvals[o.n] == Approval(o.token, o.t, Sealing(o), Summary(o), o.asked + 300, decision, delivered, granted)
  }

  // ---------------------------------------------------------------- preparing

  predicate Issued(s: State, o: Operation) {
    && Allowed(s, o) && Row(s, o, false, false) && o.n !in s.approvals && TokenUnused(s, o.token)
    && o.n in s.issued && s.issued[o.n] == Ticket(o.t, Sealing(o), o.r) && o.n in s.preparing && o.n in s.unsent
  }

  lemma IssuesRow(s: State, o: Operation)
    requires CanPrepare(s, o)
    ensures Row(Do(s, DoPrepareIssue(o.t, o.f, o.r, o.u, o.session, o.n)), o, false, false)
  {
    IssueIsACall(s, o.t, o.f, o.r, o.u, o.session, o.n, o.t);
  }

  lemma Issues(s: State, o: Operation)
    requires CanPrepare(s, o)
    ensures var s' := Do(s, DoPrepareIssue(o.t, o.f, o.r, o.u, o.session, o.n)); Issued(s', o) && s'.executions == s.executions
  {
    IssuesRow(s, o);
  }

  predicate Submitted(s: State, o: Operation) {
    && Allowed(s, o) && Row(s, o, false, false) && o.n !in s.approvals && TokenUnused(s, o.token)
    && Sent(o) in s.submissions && o.n in s.issued && o.n in s.preparing && o.n !in s.unsent
  }

  lemma Submits(s: State, o: Operation)
    requires Issued(s, o)
    ensures Submitted(Do(s, DoPrepareSubmit(o.n)), o) && Do(s, DoPrepareSubmit(o.n)).executions == s.executions
  {
  }

  predicate Registered(s: State, o: Operation, shown: bool) {
    && Allowed(s, o) && Row(s, o, false, false) && Asked(s, o, None, false, false)
    && o.n in s.sending && s.sending[o.n] == shown && o.n in s.issued && o.n in s.preparing && o.n !in s.unsent
  }

  lemma Registers(s: State, o: Operation)
    requires Submitted(s, o)
    ensures Registered(Do(s, DoApproverCreate(Sent(o), o.token, true)), o, false)
    ensures Do(s, DoApproverCreate(Sent(o), o.token, true)).executions == s.executions
  {
  }

  lemma Shows(s: State, o: Operation)
    requires Registered(s, o, false)
    ensures var s' := Do(s, DoPromptShown(o.n));
      Registered(s', o, true) && s'.executions == s.executions
      && s'.log == Then(s.log, Shown(o.n, o.u, Summary(o), DigestOf(o.f, o.r)))
  {
  }

  predicate Delivered(s: State, o: Operation) {
    && Allowed(s, o) && Row(s, o, false, false) && Asked(s, o, None, true, false)
    && o.n in s.issued && o.n in s.preparing && o.n !in s.unsent && o.n in s.pendingReplies
  }

  lemma Delivers(s: State, o: Operation)
    requires Registered(s, o, true)
    ensures var s' := Do(s, DoPromptReturns(o.n, true));
      Delivered(s', o) && s'.executions == s.executions && s'.log == s.log
  {
  }

  /** The user has the prompt, and the caller was told that the operation is prepared. */
  predicate Prompted(s: State, o: Operation) {
    Allowed(s, o) && Row(s, o, false, false) && Asked(s, o, None, true, false) && o.n !in s.preparing
  }

  lemma Finishes(s: State, o: Operation)
    requires Delivered(s, o)
    ensures var s' := Do(s, DoPrepareFinish(o.n, true));
      Prompted(s', o) && s'.executions == s.executions && s'.log == s.log
  {
  }

  // ---------------------------------------------------------------- deciding

  predicate Clicked(s: State, o: Operation, d: Decision) {
    Allowed(s, o) && Row(s, o, false, false) && Asked(s, o, Some(d), true, false) && Signed(o, d) in s.verdicts
  }

  lemma Clicks(s: State, o: Operation, d: Decision)
    requires Prompted(s, o)
    ensures var s' := Do(s, DoClick(o.n, o.token, o.u, d));
      Clicked(s', o, d) && s'.executions == s.executions && s'.log == Then(s.log, Recorded(Signed(o, d), o.u, s.now, o.asked + 300))
  {
  }

  /** A decision that got lost comes back with the next round of the polling loop. */
  lemma LostDecisionsComeBack(s: State, o: Operation, d: Decision)
    requires Clicked(s, o, d)
    ensures Signed(o, d) !in Do(s, LoseVerdict(Signed(o, d))).verdicts
    ensures Clicked(Do(Do(s, LoseVerdict(Signed(o, d))), DoResend(o.n)), o, d)
  {
  }

  /** Once acknowledged, or expired, it is not sent again. */
  lemma AcknowledgedIsNotResent(s: State, n: Nonce)
    requires n in s.approvals && (s.approvals[n].granted || s.approvals[n].expiresAt <= s.now || s.approvals[n].decision.None?)
    ensures Do(s, DoResend(n)) == s
  {
  }

  predicate Checked(s: State, o: Operation, d: Decision) {
    Allowed(s, o) && Row(s, o, false, false) && Asked(s, o, Some(d), true, false) && Signed(o, d) in s.checked
  }

  lemma Checks(s: State, o: Operation, d: Decision)
    requires Clicked(s, o, d)
    ensures var s' := Do(s, DoAcceptCheck(Signed(o, d)));
      Checked(s', o, d) && s'.executions == s.executions && s'.log == s.log
  {
  }

  predicate Armed(s: State, o: Operation, d: Decision) {
    Allowed(s, o) && Row(s, o, false, false) && Asked(s, o, Some(d), true, false) && (Signed(o, d), o.generation) in s.armed
  }

  lemma Arms(s: State, o: Operation, d: Decision)
    requires Checked(s, o, d)
    ensures var s' := Do(s, DoAcceptRead(Signed(o, d)));
      Armed(s', o, d) && s'.executions == s.executions && s'.log == s.log
  {
  }

  predicate Applied(s: State, o: Operation, d: Decision) {
    Allowed(s, o) && Row(s, o, d.Approved?, d.Denied?) && Asked(s, o, Some(d), true, false) && (o.n, d) in s.acks
  }

  lemma Applies(s: State, o: Operation, d: Decision)
    requires Armed(s, o, d)
    ensures var s' := Do(s, DoAcceptApply(Signed(o, d), o.generation));
      Applied(s', o, d) && s'.executions == s.executions
  {
    assert Signed(o, d).binding.(generation := o.generation) == Sealing(o);
  }

  /** The decision took effect at the broker, and the approver knows. */
  predicate Settled(s: State, o: Operation, d: Decision) {
    Allowed(s, o) && Row(s, o, d.Approved?, d.Denied?) && Asked(s, o, Some(d), true, true)
  }

  lemma Acknowledges(s: State, o: Operation, d: Decision)
    requires Applied(s, o, d)
    ensures var s' := Do(s, DoMarkGranted(o.n, d));
      Settled(s', o, d) && s'.executions == s.executions && s'.log == s.log
  {
  }

  // ---------------------------------------------------------------- executing

  /** The handler that waits for the operation has it sealed, run and done with. */
  lemma Claims(s: State, o: Operation, thread: Thread, s': State)
    requires Row(s, o, true, false) && s.now < o.asked + 300 && WaitsFor(s, thread, o.t, o.n, Sealing(o))
    requires s' == ExecutePoll(s, thread)
    ensures IsSealed(s', thread) && s'.executions[thread] == s.executions[thread].(phase := Sealed(o.r))
    ensures Row(s', o, true, true)
  {
    PollDecides(s, thread, s.executions[thread], s');
    PollTable(s, thread, s.executions[thread], o.t);
  }

  lemma Runs(s: State, o: Operation, thread: Thread, s': State)
    requires thread in s.executions && s.executions[thread].target == o.t && s.executions[thread].nonce == o.n
    requires s.executions[thread].binding == Sealing(o) && s.executions[thread].phase == Sealed(o.r)
    requires s' == ExecuteRun(s, thread, true)
    ensures s'.log == Then(s.log, Executed(o.n, o.t, Sealing(o), o.r))
    ensures thread in s'.executions && s'.executions[thread].phase.Running? && thread !in ExecuteEnd(s', thread).executions
  {
  }

  /** A handler whose operation was denied ends at its next poll. */
  lemma DenialEndsTheHandler(s: State, o: Operation, thread: Thread)
    requires Settled(s, o, Denied) && WaitsFor(s, thread, o.t, o.n, Sealing(o))
    ensures thread !in ExecutePoll(s, thread).executions
  {
    PollDecides(s, thread, s.executions[thread], ExecutePoll(s, thread));
  }

  // ---------------------------------------------------------------- the whole way

  lemma Add(steps: seq<Step>, step: Step) returns (longer: seq<Step>)
    ensures longer == steps + [step] && Run(longer) == Do(Run(steps), step)
  {
    longer := steps + [step];
    RunLast(longer, steps, step);
  }

  function IssueStep(o: Operation): Step {
    DoPrepareIssue(o.t, o.f, o.r, o.u, o.session, o.n)
  }

  lemma Requests(steps: seq<Step>, o: Operation) returns (longer: seq<Step>)
    requires CanPrepare(Run(steps), o)
    ensures longer == steps + [IssueStep(o)] + [DoPrepareSubmit(o.n)] + [DoApproverCreate(Sent(o), o.token, true)]
    ensures Registered(Run(longer), o, false) && Run(longer).executions == Run(steps).executions
  {
    var a := Add(steps, IssueStep(o)); Issues(Run(steps), o);
    var b := Add(a, DoPrepareSubmit(o.n)); Submits(Run(a), o);
    longer := Add(b, DoApproverCreate(Sent(o), o.token, true)); Registers(Run(b), o);
  }

  lemma Prompts(steps: seq<Step>, o: Operation) returns (longer: seq<Step>)
    requires Registered(Run(steps), o, false)
    ensures longer == steps + [DoPromptShown(o.n)] + [DoPromptReturns(o.n, true)] + [DoPrepareFinish(o.n, true)]
    ensures Prompted(Run(longer), o) && Run(longer).executions == Run(steps).executions
    ensures Run(longer).log == Then(Run(steps).log, Shown(o.n, o.u, Summary(o), DigestOf(o.f, o.r)))
  {
    var a := Add(steps, DoPromptShown(o.n)); Shows(Run(steps), o);
    var b := Add(a, DoPromptReturns(o.n, true)); Delivers(Run(a), o);
    longer := Add(b, DoPrepareFinish(o.n, true)); Finishes(Run(b), o);
  }

  lemma Answers(steps: seq<Step>, o: Operation, d: Decision) returns (longer: seq<Step>)
    requires Prompted(Run(steps), o)
    ensures longer == steps + [DoClick(o.n, o.token, o.u, d)] + [DoAcceptCheck(Signed(o, d))] + [DoAcceptRead(Signed(o, d))]
    ensures Armed(Run(longer), o, d) && Run(longer).executions == Run(steps).executions
  {
    var a := Add(steps, DoClick(o.n, o.token, o.u, d)); Clicks(Run(steps), o, d);
    var b := Add(a, DoAcceptCheck(Signed(o, d))); Checks(Run(a), o, d);
    longer := Add(b, DoAcceptRead(Signed(o, d))); Arms(Run(b), o, d);
  }

  lemma Settles(steps: seq<Step>, o: Operation, d: Decision) returns (longer: seq<Step>)
    requires Armed(Run(steps), o, d)
    ensures longer == steps + [DoAcceptApply(Signed(o, d), o.generation)] + [DoMarkGranted(o.n, d)]
    ensures Settled(Run(longer), o, d) && Run(longer).executions == Run(steps).executions
  {
    var a := Add(steps, DoAcceptApply(Signed(o, d), o.generation)); Applies(Run(steps), o, d);
    longer := Add(a, DoMarkGranted(o.n, d)); Acknowledges(Run(a), o, d);
  }

  lemma Executes(steps: seq<Step>, o: Operation, thread: Thread) returns (longer: seq<Step>)
    requires Settled(Run(steps), o, Approved) && WaitsFor(Run(steps), thread, o.t, o.n, Sealing(o))
    ensures longer == steps + [DoExecutePoll(thread)] + [DoExecuteRun(thread, true)]
    ensures Run(longer).log.Then? && Run(longer).log.event == Executed(o.n, o.t, Sealing(o), o.r)
  {
    var a := Add(steps, DoExecutePoll(thread)); Claims(Run(steps), o, thread, Run(a));
    longer := Add(a, DoExecuteRun(thread, true)); Runs(Run(a), o, thread, Run(longer));
  }

  function StartStep(o: Operation, thread: Thread): Step {
    DoExecuteStart(thread, o.t, o.n, o.f, DigestOf(o.f, o.r), o.u, o.session)
  }

  lemma Starts(steps: seq<Step>, o: Operation, thread: Thread) returns (longer: seq<Step>)
    requires Prompted(Run(steps), o) && thread !in Run(steps).executions && SlotsUsed(Run(steps), o.t) < 4
    ensures longer == steps + [StartStep(o, thread)]
    ensures Prompted(Run(longer), o) && WaitsFor(Run(longer), thread, o.t, o.n, Sealing(o))
  {
    longer := Add(steps, StartStep(o, thread));
    StartWaits(Run(steps), thread, o.t, o.n, o.f, DigestOf(o.f, o.r), o.u, o.session);
    StartKeepsPrompt(Run(steps), o, thread);
  }

  lemma StartKeepsPrompt(s: State, o: Operation, thread: Thread)
    requires Prompted(s, o)
    ensures Prompted(Do(s, StartStep(o, thread)), o)
  {
  }

  /** From any reachable state: an enabled operation of an approving user, under a fresh nonce and token and with a free
      slot, is prepared, shown, waited for, approved and executed, and what is executed is the request that was asked. */
  lemma ApprovedOperationsExecute(steps: seq<Step>, o: Operation, thread: Thread) returns (longer: seq<Step>)
    requires CanPrepare(Run(steps), o) && thread !in Run(steps).executions && SlotsUsed(Run(steps), o.t) < 4
    ensures longer == steps
      + [IssueStep(o)] + [DoPrepareSubmit(o.n)] + [DoApproverCreate(Sent(o), o.token, true)]
      + [DoPromptShown(o.n)] + [DoPromptReturns(o.n, true)] + [DoPrepareFinish(o.n, true)] + [StartStep(o, thread)]
      + [DoClick(o.n, o.token, o.u, Approved)] + [DoAcceptCheck(Signed(o, Approved))] + [DoAcceptRead(Signed(o, Approved))]
      + [DoAcceptApply(Signed(o, Approved), o.generation)] + [DoMarkGranted(o.n, Approved)]
      + [DoExecutePoll(thread)] + [DoExecuteRun(thread, true)]
    ensures Run(longer).log.Then? && Run(longer).log.event == Executed(o.n, o.t, Sealing(o), o.r)
  {
    longer := Requests(steps, o);
    longer := Prompts(longer, o);
    longer := Starts(longer, o, thread);
    longer := Answers(longer, o, Approved);
    longer := Settles(longer, o, Approved);
    longer := Executes(longer, o, thread);
  }

  /** The same way with the other button: the row is closed, the handler ends, and nothing is ever executed. */
  lemma DeniedOperationsEnd(steps: seq<Step>, o: Operation, thread: Thread) returns (longer: seq<Step>)
    requires CanPrepare(Run(steps), o) && thread !in Run(steps).executions && SlotsUsed(Run(steps), o.t) < 4
    ensures longer == steps
      + [IssueStep(o)] + [DoPrepareSubmit(o.n)] + [DoApproverCreate(Sent(o), o.token, true)]
      + [DoPromptShown(o.n)] + [DoPromptReturns(o.n, true)] + [DoPrepareFinish(o.n, true)] + [StartStep(o, thread)]
      + [DoClick(o.n, o.token, o.u, Denied)] + [DoAcceptCheck(Signed(o, Denied))] + [DoAcceptRead(Signed(o, Denied))]
      + [DoAcceptApply(Signed(o, Denied), o.generation)] + [DoMarkGranted(o.n, Denied)]
    ensures Row(Run(longer), o, false, true) && thread !in ExecutePoll(Run(longer), thread).executions
  {
    longer := Requests(steps, o);
    longer := Prompts(longer, o);
    longer := Starts(longer, o, thread);
    longer := Answers(longer, o, Denied);
    longer := Settles(longer, o, Denied);
    DenialEndsTheHandler(Run(longer), o, thread);
  }
}
