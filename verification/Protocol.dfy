/**
 The one-time approval protocol as a step system: two execution brokers
 (execution-broker/src/broker/server.py), the independent approver
 (execution-broker/src/broker/approver.py) and a network that loses, repeats and reorders.

 Hermes is not trusted: any prepare, execute or cancel call may arrive at any time with any
 arguments. Submissions come from the brokers only (the approval-request secret) and verdicts
 from the approver only (its signature). Each read of the policy generation is a step of its own.
 A step that is not enabled changes nothing, so a run is any sequence of steps.
 */
module Protocol {
  import opened Collections
  import opened Capabilities
  import opened ApprovalLog

  type Token = nat
  type Thread = nat

  const APPROVAL_TTL: Time := 300
  const WAIT_SECONDS: Time := 300
  const MAX_CONCURRENT: nat := 4

  /** What `issue` wrote, remembered after the row is purged. */
  datatype Ticket = Ticket(target: Target, binding: Binding, request: Request)

  datatype Submission = Submission(nonce: Nonce, target: Target, binding: Binding, request: Request, summary: string)

  /** A row of approval_requests. */
  datatype Approval = Approval(token: Token, target: Target, binding: Binding, summary: string, expiresAt: Time,
                               decision: Option<Decision>, delivered: bool, granted: bool)

  datatype Phase = Waiting | Sealed(request: Request) | Running

  /** A handler thread inside _execute, holding one slot. */
  datatype Execution = Execution(target: Target, nonce: Nonce, binding: Binding, deadline: Time, phase: Phase)

  datatype State = State(
    now: Time, generation: Generation, features: set<Feature>, approvers: set<User>,
    docker: Table, ssh: Table,              // the two brokers' capability tables
    issued: map<Nonce, Ticket>,             // every nonce ever drawn
    preparing: set<Nonce>,                  // brokers between issue and the approver's answer
    unsent: set<Nonce>,                     // of those, the ones not yet submitted
    submissions: set<Submission>,           // in the network
    approvals: map<Nonce, Approval>,        // the approver's table
    sending: map<Nonce, bool>,              // prompts being sent; true once Telegram showed it
    pendingReplies: set<Nonce>,             // the approver's "pending" answers, in the network
    verdicts: set<Verdict>,                 // signed decisions, in the network
    acks: set<(Nonce, Decision)>,           // the brokers' answers to them, in the network
    checked: set<Verdict>,                  // _accept threads past the generation check
    armed: set<(Verdict, Generation)>,      // _accept threads with their statement arguments
    executions: map<Thread, Execution>,     // _execute threads
    log: Log)

  const Init: State :=
    State(0, 0, {}, {}, map[], map[], map[], {}, {}, {}, map[], map[], {}, {}, {}, {}, {}, map[], Start)

  function Rows(s: State, t: Target): Table {
    if t.DockerBroker? then s.docker else s.ssh
  }

  function WithRows(s: State, t: Target, rows: Table): State {
    if t.DockerBroker? then s.(docker := rows) else s.(ssh := rows)
  }

  predicate Enabled(s: State, t: Target, f: Feature) {
    f in s.features && Serves(t, f)
  }

  function Logged(s: State, e: Event): State {
    s.(log := Then(s.log, e))
  }

  // ---------------------------------------------------------------- the broker prepares

  /** The first half of _prepare: seal, digest, issue under the generation read now. */
  function PrepareIssue(s: State, t: Target, f: Feature, r: Request, u: User, session: Session, nonce: Nonce): (r': State)
    ensures r'.generation == s.generation && r'.executions == s.executions
  {
    if !Enabled(s, t, f) || nonce in s.issued then s else
    var b := Binding(f, DigestOf(f, r), u, session, s.generation);
    WithRows(s, t, Issue(Rows(s, t), nonce, b, r, s.now))
      .(issued := s.issued[nonce := Ticket(t, b, r)], preparing := s.preparing + {nonce}, unsent := s.unsent + {nonce})
  }

  /** The second half reads the generation again and submits. */
  function PrepareSubmit(s: State, nonce: Nonce): (r': State)
    ensures r'.generation == s.generation && r'.executions == s.executions
    ensures r'.issued == s.issued && r'.docker == s.docker && r'.ssh == s.ssh
  {
    if nonce !in s.unsent || nonce !in s.issued then s else
    var k := s.issued[nonce];
    var sub := Submission(nonce, k.target, k.binding.(generation := s.generation), k.request,
                          RenderSummary(k.binding.feature, k.request));
    s.(unsent := s.unsent - {nonce}, submissions := s.submissions + {sub})
  }

  /** The approver answered "pending", or the broker gives up and cancels its own nonce. */
  function PrepareFinish(s: State, nonce: Nonce, answered: bool): (r': State)
    ensures r'.generation == s.generation && r'.executions == s.executions
    ensures r'.issued == s.issued
  {
    if nonce !in s.preparing || nonce in s.unsent || nonce !in s.issued then s else
    if answered then
      if nonce in s.pendingReplies then s.(preparing := s.preparing - {nonce}) else s
    else
      CancelCapability(s, s.issued[nonce].target, nonce).(preparing := s.preparing - {nonce})
  }

  function CancelCapability(s: State, t: Target, nonce: Nonce): (r': State)
    ensures r'.generation == s.generation && r'.executions == s.executions
    ensures r'.issued == s.issued
  {
    var s' := WithRows(s, t, Cancel(Rows(s, t), nonce));
    if nonce in Rows(s, t) then Logged(s', Cancelled(nonce)) else s'
  }

  // ---------------------------------------------------------------- the approver

  predicate TokenUnused(s: State, token: Token) {
    forall n | n in s.approvals :: s.approvals[n].token != token
  }

  /** validate_submission; the floor check reads outside state and is a parameter. */
  predicate ValidSubmission(s: State, sub: Submission, floorOk: bool) {
    && Serves(sub.target, sub.binding.feature)
    && sub.binding.generation == s.generation
    && floorOk
    && sub.binding.digest == DigestOf(sub.binding.feature, sub.request)
    && sub.summary == RenderSummary(sub.binding.feature, sub.request)
  }

  /** _request up to the INSERT, whose primary key and unique token refuse a repeat. */
  function ApproverCreate(s: State, sub: Submission, token: Token, floorOk: bool): (r': State)
    ensures r'.generation == s.generation && r'.executions == s.executions
    ensures r'.issued == s.issued && r'.docker == s.docker && r'.ssh == s.ssh
  {
    if sub !in s.submissions || !ValidSubmission(s, sub, floorOk) || sub.binding.user !in s.approvers
       || sub.nonce in s.approvals || !TokenUnused(s, token)
    then s else
    s.(approvals := s.approvals[sub.nonce := Approval(token, sub.target, sub.binding, sub.summary, s.now + APPROVAL_TTL,
                                                      None, false, false)],
       sending := s.sending[sub.nonce := false])
  }

  /** sendMessage took effect: the prompt is in the user's chat. */
  function PromptShown(s: State, nonce: Nonce): (r': State)
    ensures r'.generation == s.generation && r'.executions == s.executions
    ensures r'.issued == s.issued && r'.docker == s.docker && r'.ssh == s.ssh
  {
    if nonce !in s.sending || s.sending[nonce] || nonce !in s.approvals then s else
    var a := s.approvals[nonce];
    Logged(s.(sending := s.sending[nonce := true]), Shown(nonce, a.binding.user, a.summary, a.binding.digest))
  }

  /** sendMessage returned: mark_delivered on success. The call may also fail after the prompt was shown. */
  function PromptReturns(s: State, nonce: Nonce, ok: bool): (r': State)
    ensures r'.generation == s.generation && r'.executions == s.executions
    ensures r'.issued == s.issued && r'.docker == s.docker && r'.ssh == s.ssh
  {
    if nonce !in s.sending || nonce !in s.approvals || (ok && !s.sending[nonce]) then s else
    var s' := s.(sending := s.sending - {nonce});
    if ok then
      s'.(approvals := s.approvals[nonce := s.approvals[nonce].(delivered := true)],
          pendingReplies := s.pendingReplies + {nonce})
    else if s.approvals[nonce].decision.None? then s'.(approvals := s.approvals - {nonce})
    else s'
  }

  /** _handle_callback for any sender and any token: resolve, then send the signed verdict. */
  function Click(s: State, nonce: Nonce, token: Token, sender: User, decision: Decision): (r': State)
    ensures r'.generation == s.generation && r'.executions == s.executions
    ensures r'.issued == s.issued && r'.docker == s.docker && r'.ssh == s.ssh
  {
    if nonce !in s.approvals || sender !in s.approvers then s else
    var a := s.approvals[nonce];
    if a.token != token || a.binding.user != sender || a.decision.Some? || !a.delivered || a.expiresAt <= s.now
    then s else
    var v := Verdict(nonce, a.target, a.binding, decision);
    Logged(s.(approvals := s.approvals[nonce := a.(decision := Some(decision))], verdicts := s.verdicts + {v}),
           Recorded(v, sender, s.now, a.expiresAt))
  }

  /** The polling loop sends every recorded, unacknowledged, unexpired decision again. */
  function Resend(s: State, nonce: Nonce): (r': State)
    ensures r'.generation == s.generation && r'.executions == s.executions
    ensures r'.issued == s.issued && r'.docker == s.docker && r'.ssh == s.ssh
  {
    if nonce !in s.approvals then s else
    var a := s.approvals[nonce];
    if a.decision.None? || a.granted || a.expiresAt <= s.now then s else
    s.(verdicts := s.verdicts + {Verdict(nonce, a.target, a.binding, a.decision.value)})
  }

  function MarkGranted(s: State, nonce: Nonce, d: Decision): (r': State)
    ensures r'.generation == s.generation && r'.executions == s.executions
    ensures r'.issued == s.issued && r'.docker == s.docker && r'.ssh == s.ssh
  {
    if (nonce, d) !in s.acks || nonce !in s.approvals || s.approvals[nonce].decision != Some(d) then s else
    s.(approvals := s.approvals[nonce := s.approvals[nonce].(granted := true)])
  }

  // ---------------------------------------------------------------- the broker takes the decision

  /** _accept checks target, generation and feature. The verdict stays in the network: it may be
      delivered again, also concurrently. */
  function AcceptCheck(s: State, v: Verdict): (r': State)
    ensures r'.generation == s.generation && r'.executions == s.executions
    ensures r'.issued == s.issued && r'.docker == s.docker && r'.ssh == s.ssh
  {
    if v !in s.verdicts || v.binding.generation != s.generation || !Enabled(s, v.target, v.binding.feature) then s else
    s.(checked := s.checked + {v})
  }

  /** The statement's own generation argument is a second read. */
  function AcceptRead(s: State, v: Verdict): (r': State)
    ensures r'.generation == s.generation && r'.executions == s.executions
    ensures r'.issued == s.issued && r'.docker == s.docker && r'.ssh == s.ssh
  {
    if v !in s.checked then s else s.(armed := s.armed + {(v, s.generation)})
  }

  /** The UPDATE itself, some time later. */
  function AcceptApply(s: State, v: Verdict, g: Generation): (r': State)
    ensures r'.generation == s.generation && r'.executions == s.executions
    ensures r'.issued == s.issued
  {
    if (v, g) !in s.armed then s else
    var rows := Rows(s, v.target);
    var b := v.binding.(generation := g);
    if !Undecided(rows, v.nonce, b, s.now) then s else
    var expiresAt := rows[v.nonce].expiresAt;
    var s' := s.(acks := s.acks + {(v.nonce, v.decision)});
    if v.decision.Approved? then
      Logged(WithRows(s', v.target, Approve(rows, v.nonce, b, s.now)),
             Granted(v.nonce, v.target, b, s.now, expiresAt, v.binding.generation, g, s.generation))
    else
      Logged(WithRows(s', v.target, CancelBound(rows, v.nonce, b, s.now)),
             Refused(v.nonce, v.target, b, s.now, expiresAt, v.binding.generation, g, s.generation))
  }

  // ---------------------------------------------------------------- the broker executes

  function Holders(s: State, t: Target): set<Thread> {
    set k | k in s.executions && s.executions[k].target == t
  }

  function SlotsUsed(s: State, t: Target): nat {
    |Holders(s, t)|
  }

  /** _execute takes a slot and reads the generation once, for the whole wait. */
  function ExecuteStart(s: State, thread: Thread, t: Target, nonce: Nonce, f: Feature, digest: Digest, u: User,
                        session: Session): (r': State)
    ensures r'.generation == s.generation
    ensures r'.issued == s.issued && r'.docker == s.docker && r'.ssh == s.ssh
  {
    if !Enabled(s, t, f) || thread in s.executions || SlotsUsed(s, t) >= MAX_CONCURRENT then s else
    s.(executions := s.executions[thread := Execution(t, nonce, Binding(f, digest, u, session, s.generation),
                                                      s.now + WAIT_SECONDS, Waiting)])
  }

  /** One poll of consume. */
  function ExecutePoll(s: State, thread: Thread): (r': State)
    ensures r'.generation == s.generation
    ensures r'.issued == s.issued
  {
    if thread !in s.executions || !s.executions[thread].phase.Waiting? then s else
    var x := s.executions[thread];
    var rows := Rows(s, x.target);
    if Claimable(rows, x.nonce, x.binding, s.now) then
      var row := rows[x.nonce];
      Logged(WithRows(s, x.target, Claim(rows, x.nonce, x.binding, s.now))
               .(executions := s.executions[thread := x.(phase := Sealed(row.request))]),
             Claimed(x.nonce, x.target, x.binding, row.request, s.now, row.expiresAt, s.generation))
    else if !Pending(rows, x.nonce, x.binding, s.now) || x.deadline - s.now <= 0 then
      s.(executions := s.executions - {thread})
    else s
  }

  /** The checks after consume, then the operation. The engine's answers are a parameter. */
  function ExecuteRun(s: State, thread: Thread, checksPass: bool): (r': State)
    ensures r'.generation == s.generation
    ensures r'.issued == s.issued && r'.docker == s.docker && r'.ssh == s.ssh
  {
    if thread !in s.executions || !s.executions[thread].phase.Sealed? then s else
    var x := s.executions[thread];
    var r := x.phase.request;
    if DigestOf(x.binding.feature, r) != x.binding.digest || !checksPass then
      s.(executions := s.executions - {thread})
    else
      Logged(s.(executions := s.executions[thread := x.(phase := Running)]),
             Executed(x.nonce, x.target, x.binding, r))
  }

  function ExecuteEnd(s: State, thread: Thread): (r': State)
    ensures r'.generation == s.generation
    ensures r'.issued == s.issued && r'.docker == s.docker && r'.ssh == s.ssh
  {
    if thread !in s.executions || !s.executions[thread].phase.Running? then s else
    s.(executions := s.executions - {thread})
  }

  // ---------------------------------------------------------------- the surroundings

  /** A broker restarts: its handler threads are gone and cancel_generation runs. */
  function Restart(s: State, t: Target): State {
    WithRows(s, t, CancelGeneration(Rows(s, t), s.generation))
      .(executions := (map k | k in s.executions && s.executions[k].target != t :: s.executions[k]),
        preparing := (set n | n in s.preparing && !(n in s.issued && s.issued[n].target == t)),
        unsent := (set n | n in s.unsent && !(n in s.issued && s.issued[n].target == t)),
        checked := (set v | v in s.checked && v.target != t),
        armed := (set p | p in s.armed && p.0.target != t))
  }

  datatype Step =
    | DoPrepareIssue(t: Target, f: Feature, r: Request, u: User, session: Session, nonce: Nonce)
    | DoPrepareSubmit(nonce: Nonce)
    | DoPrepareFinish(nonce: Nonce, answered: bool)
    | DoApproverCreate(sub: Submission, token: Token, floorOk: bool)
    | DoPromptShown(nonce: Nonce)
    | DoPromptReturns(nonce: Nonce, ok: bool)
    | DoClick(nonce: Nonce, token: Token, sender: User, decision: Decision)
    | DoResend(nonce: Nonce)
    | DoMarkGranted(nonce: Nonce, decision: Decision)
    | DoAcceptCheck(v: Verdict)
    | DoAcceptRead(v: Verdict)
    | DoAcceptApply(v: Verdict, g: Generation)
    | DoExecuteStart(thread: Thread, t: Target, nonce: Nonce, f: Feature, digest: Digest, u: User, session: Session)
    | DoExecutePoll(thread: Thread)
    | DoExecuteRun(thread: Thread, checksPass: bool)
    | DoExecuteEnd(thread: Thread)
    | DoCancel(t: Target, nonce: Nonce)
    | DoRestart(t: Target)
    | BumpGeneration
    | Tick(seconds: nat)
    | SetFeatures(features: set<Feature>)
    | SetApprovers(users: set<User>)
    | LoseSubmission(sub: Submission)
    | LoseVerdict(v: Verdict)

  function Do(s: State, step: Step): State {
    match step
    case DoPrepareIssue(t, f, r, u, session, nonce) => PrepareIssue(s, t, f, r, u, session, nonce)
    case DoPrepareSubmit(nonce) => PrepareSubmit(s, nonce)
    case DoPrepareFinish(nonce, answered) => PrepareFinish(s, nonce, answered)
    case DoApproverCreate(sub, token, floorOk) => ApproverCreate(s, sub, token, floorOk)
    case DoPromptShown(nonce) => PromptShown(s, nonce)
    case DoPromptReturns(nonce, ok) => PromptReturns(s, nonce, ok)
    case DoClick(nonce, token, sender, d) => Click(s, nonce, token, sender, d)
    case DoResend(nonce) => Resend(s, nonce)
    case DoMarkGranted(nonce, d) => MarkGranted(s, nonce, d)
    case DoAcceptCheck(v) => AcceptCheck(s, v)
    case DoAcceptRead(v) => AcceptRead(s, v)
    case DoAcceptApply(v, g) => AcceptApply(s, v, g)
    case DoExecuteStart(k, t, n, f, d, u, session) => ExecuteStart(s, k, t, n, f, d, u, session)
    case DoExecutePoll(k) => ExecutePoll(s, k)
    case DoExecuteRun(k, ok) => ExecuteRun(s, k, ok)
    case DoExecuteEnd(k) => ExecuteEnd(s, k)
    case DoCancel(t, n) => CancelCapability(s, t, n)
    case DoRestart(t) => Restart(s, t)
    case BumpGeneration => s.(generation := s.generation + 1)
    case Tick(seconds) => s.(now := s.now + seconds)
    case SetFeatures(fs) => s.(features := fs)
    case SetApprovers(us) => s.(approvers := us)
    case LoseSubmission(sub) => s.(submissions := s.submissions - {sub})
    case LoseVerdict(v) => s.(verdicts := s.verdicts - {v})
  }

  function Run(steps: seq<Step>): State {
    if steps == [] then Init else Do(Run(steps[..|steps| - 1]), steps[|steps| - 1])
  }
}
