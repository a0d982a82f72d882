/**
 Safety of the approval protocol over every run: the history is always justified.
 The invariant ties each table, message and thread to the history.
 */
module ProtocolSafety {
  import opened Collections
  import opened Capabilities
  import opened ApprovalLog
  import opened Protocol

  // ---------------------------------------------------------------- the invariant

  ghost predicate TicketsSound(s: State) {
    forall n | n in s.issued ::
      var k := s.issued[n];
      && Serves(k.target, k.binding.feature) && k.binding.generation <= s.generation
      && k.binding.digest == DigestOf(k.binding.feature, k.request)
  }

  /** The binding differs from the issued one at most in a later generation: the second read of
      _prepare comes after the first. */
  ghost predicate FromTicket(s: State, n: Nonce, t: Target, b: Binding) {
    && n in s.issued && s.issued[n].target == t
    && s.issued[n].binding == b.(generation := s.issued[n].binding.generation)
    && s.issued[n].binding.generation <= b.generation <= s.generation
  }

  ghost predicate RowsSound(s: State, t: Target, rows: Table) {
    forall n | n in rows ::
      && n in s.issued && s.issued[n] == Ticket(t, rows[n].binding, rows[n].request)
      && (rows[n].approved ==> GrantedIn(s.log, n, t, rows[n].binding))
      && (ClosedIn(s.log, n) ==> rows[n].consumed)
      && (SettledIn(s.log, n) ==> rows[n].approved || rows[n].consumed)
  }

  ghost predicate SubmissionsSound(s: State) {
    forall sub | sub in s.submissions ::
      && FromTicket(s, sub.nonce, sub.target, sub.binding) && sub.request == s.issued[sub.nonce].request
  }

  ghost predicate ApprovalsSound(s: State) {
    forall n | n in s.approvals ::
      var a := s.approvals[n];
      && FromTicket(s, n, a.target, a.binding)
      && a.summary == RenderSummary(a.binding.feature, s.issued[n].request)
      && (a.delivered ==> ShownIn(s.log, n, a.binding.user, a.summary, a.binding.digest))
      && (a.decision.Some? ==> a.delivered && RecordedIn(s.log, Verdict(n, a.target, a.binding, a.decision.value)))
      && (a.decision.None? ==> !DecidedIn(s.log, n))
  }

  ghost predicate SendingSound(s: State) {
    forall n | n in s.sending ::
      && n in s.approvals && !s.approvals[n].delivered
      && var a := s.approvals[n];
      && (s.sending[n] ==> ShownIn(s.log, n, a.binding.user, a.summary, a.binding.digest))
  }

  ghost predicate VerdictSound(s: State, v: Verdict) {
    RecordedIn(s.log, v) && FromTicket(s, v.nonce, v.target, v.binding)
  }

  ghost predicate VerdictsSound(s: State) {
    && (forall v | v in s.verdicts :: VerdictSound(s, v))
    && (forall v | v in s.checked :: VerdictSound(s, v))
    && (forall p | p in s.armed :: VerdictSound(s, p.0) && p.0.binding.generation <= p.1 <= s.generation)
  }

  ghost predicate ExecutionsSound(s: State) {
    && (forall k | k in s.executions ::
          var x := s.executions[k];
          && x.binding.generation <= s.generation
          && (x.phase.Sealed? ==> ClaimedIn(s.log, x.nonce, x.target, x.binding, x.phase.request)
                                  && ClosedIn(s.log, x.nonce) && !ExecutedIn(s.log, x.nonce)))
    && (forall j, k | j in s.executions && k in s.executions && s.executions[j].phase.Sealed?
                      && s.executions[k].phase.Sealed? && s.executions[j].nonce == s.executions[k].nonce :: j == k)
  }

  /** The history speaks of issued nonces only, and an execution follows a closing. */
  ghost predicate LogSound(s: State) {
    && JustifiedLog(s.log)
    && (forall n | n !in s.issued :: !SettledIn(s.log, n) && !ClosedIn(s.log, n) && !DecidedIn(s.log, n))
    && (forall n | n !in s.approvals :: !DecidedIn(s.log, n))
    && (forall n | ExecutedIn(s.log, n) :: ClosedIn(s.log, n))
  }

  ghost predicate Inv(s: State) {
    && TicketsSound(s) && RowsSound(s, DockerBroker, s.docker) && RowsSound(s, SshBroker, s.ssh)
    && SubmissionsSound(s) && ApprovalsSound(s) && SendingSound(s) && VerdictsSound(s)
    && ExecutionsSound(s) && LogSound(s)
  }

  // ---------------------------------------------------------------- what a step leaves alone

  /** The ledger is the same, the generation has not gone back and at most one event was added. */
  ghost predicate Later(s: State, s': State) {
    && s'.issued == s.issued && s.generation <= s'.generation
    && (s'.log == s.log || (s'.log.Then? && s'.log.before == s.log))
  }

  ghost predicate Adds(s: State, s': State) {
    s'.log != s.log && s'.log.Then? && s'.log.before == s.log
  }

  /** The new event, if any, is none of the kinds that speak about capability rows. */
  ghost predicate RowEvent(e: Event) {
    e.Granted? || e.Refused? || e.Claimed? || e.Cancelled?
  }

  lemma LogGrows(s: State, s': State)
    requires Later(s, s')
    ensures forall n, u, summary, d | ShownIn(s.log, n, u, summary, d) :: ShownIn(s'.log, n, u, summary, d)
    ensures forall v | RecordedIn(s.log, v) :: RecordedIn(s'.log, v)
    ensures forall n, t, b | GrantedIn(s.log, n, t, b) :: GrantedIn(s'.log, n, t, b)
    ensures forall n, t, b, r | ClaimedIn(s.log, n, t, b, r) :: ClaimedIn(s'.log, n, t, b, r)
    ensures forall n | ClosedIn(s.log, n) :: ClosedIn(s'.log, n)
  {
  }

  lemma RowsFrame(s: State, s': State, t: Target, rows: Table)
    requires Later(s, s') && RowsSound(s, t, rows)
    requires Adds(s, s') && RowEvent(s'.log.event) ==> s'.log.event.nonce !in rows
    ensures RowsSound(s', t, rows)
  {
  }

  lemma SubmissionsFrame(s: State, s': State)
    requires Later(s, s') && SubmissionsSound(s) && s'.submissions <= s.submissions
    ensures SubmissionsSound(s')
  {
  }

  lemma ApprovalsFrame(s: State, s': State)
    requires Later(s, s') && ApprovalsSound(s) && SendingSound(s)
    requires s'.approvals == s.approvals && s'.sending == s.sending
    requires Adds(s, s') ==> !s'.log.event.Recorded?
    ensures ApprovalsSound(s') && SendingSound(s')
  {
    LogGrows(s, s');
  }

  lemma VerdictsFrame(s: State, s': State)
    requires Later(s, s') && VerdictsSound(s)
    requires s'.verdicts <= s.verdicts && s'.checked <= s.checked && s'.armed <= s.armed
    ensures VerdictsSound(s')
  {
    forall v | VerdictSound(s, v) ensures VerdictSound(s', v) {
    }
  }

  lemma ExecutionsFrame(s: State, s': State)
    requires Later(s, s') && ExecutionsSound(s)
    requires forall k | k in s'.executions :: k in s.executions && s'.executions[k] == s.executions[k]
    requires Adds(s, s') ==> !s'.log.event.Executed?
    ensures ExecutionsSound(s')
  {
    LogGrows(s, s');
  }

  /** The step touches no row, no approval and no history. */
  ghost predicate Stable(s: State, s': State) {
    && s'.issued == s.issued && s.generation <= s'.generation && s'.log == s.log
    && s'.docker == s.docker && s'.ssh == s.ssh && s'.approvals == s.approvals && s'.sending == s.sending
  }

  lemma StableKeeps(s: State, s': State)
    requires Inv(s) && Stable(s, s')
    requires SubmissionsSound(s') && VerdictsSound(s') && ExecutionsSound(s')
    ensures Inv(s')
  {
    RowsFrame(s, s', DockerBroker, s.docker);
    RowsFrame(s, s', SshBroker, s.ssh);
    ApprovalsFrame(s, s');
  }

  // ---------------------------------------------------------------- each step keeps it

  lemma FreshTicketKeeps(s: State, s': State, n: Nonce, k: Ticket)
    requires Inv(s) && n !in s.issued && s'.issued == s.issued[n := k]
    requires Serves(k.target, k.binding.feature) && k.binding.generation <= s.generation
    requires k.binding.digest == DigestOf(k.binding.feature, k.request)
    requires s'.generation == s.generation && s'.log == s.log && s'.submissions == s.submissions
    requires s'.approvals == s.approvals && s'.sending == s.sending && s'.executions == s.executions
    requires s'.verdicts == s.verdicts && s'.checked == s.checked && s'.armed == s.armed
    ensures TicketsSound(s') && SubmissionsSound(s') && ApprovalsSound(s') && SendingSound(s')
    ensures VerdictsSound(s') && ExecutionsSound(s') && LogSound(s')
  {
    forall m, t, b | FromTicket(s, m, t, b) ensures FromTicket(s', m, t, b) {
    }
    forall v | VerdictSound(s, v) ensures VerdictSound(s', v) {
    }
  }

  lemma FreshTicketRows(s: State, s': State, n: Nonce, k: Ticket, t: Target, rows: Table)
    requires RowsSound(s, t, rows) && n !in s.issued && s'.issued == s.issued[n := k] && s'.log == s.log
    ensures RowsSound(s', t, rows)
  {
  }

  lemma IssuedRows(s: State, s': State, t: Target, rows: Table, n: Nonce, b: Binding, r: Request, now: Time)
    requires RowsSound(s, t, rows) && n !in s.issued && s'.issued == s.issued[n := Ticket(t, b, r)] && s'.log == s.log
    requires !ClosedIn(s.log, n) && !SettledIn(s.log, n)
    ensures RowsSound(s', t, Issue(rows, n, b, r, now))
  {
  }

  lemma PrepareIssueKeeps(s: State, t: Target, f: Feature, r: Request, u: User, session: Session, nonce: Nonce)
    requires Inv(s)
    ensures Inv(PrepareIssue(s, t, f, r, u, session, nonce))
  {
    if Enabled(s, t, f) && nonce !in s.issued {
      var s' := PrepareIssue(s, t, f, r, u, session, nonce);
      var b := Binding(f, DigestOf(f, r), u, session, s.generation);
      FreshTicketKeeps(s, s', nonce, Ticket(t, b, r));
      if t.DockerBroker? {
        IssuedRows(s, s', t, s.docker, nonce, b, r, s.now);
        FreshTicketRows(s, s', nonce, Ticket(t, b, r), SshBroker, s.ssh);
      } else {
        IssuedRows(s, s', t, s.ssh, nonce, b, r, s.now);
        FreshTicketRows(s, s', nonce, Ticket(t, b, r), DockerBroker, s.docker);
      }
    }
  }

  lemma PrepareSubmitChanges(s: State, nonce: Nonce, s': State)
    requires s' == PrepareSubmit(s, nonce)
    ensures Stable(s, s') && s'.executions == s.executions
    ensures s'.verdicts == s.verdicts && s'.checked == s.checked && s'.armed == s.armed
  {
  }

  lemma PrepareSubmitKeeps(s: State, nonce: Nonce, s': State)
    requires Inv(s) && s' == PrepareSubmit(s, nonce)
    ensures Inv(s')
  {
    PrepareSubmitChanges(s, nonce, s');
    SubmittedSound(s, nonce);
    ExecutionsFrame(s, s');
    VerdictsFrame(s, s');
    StableKeeps(s, s');
  }

  lemma SubmittedSound(s: State, nonce: Nonce)
    requires TicketsSound(s) && SubmissionsSound(s)
    ensures SubmissionsSound(PrepareSubmit(s, nonce))
  {
  }

  /** A step that only closes or settles rows of one broker: what is left to check is that table and
      the new event. */
  lemma RowStepKeeps(s: State, s': State, t: Target, n: Nonce)
    requires Inv(s) && Adds(s, s') && RowEvent(s'.log.event) && s'.log.event.nonce == n
    requires s'.issued == s.issued && s'.generation == s.generation && n in s.issued && s.issued[n].target == t
    requires Rows(s', Other(t)) == Rows(s, Other(t))
    requires s'.approvals == s.approvals && s'.sending == s.sending && s'.submissions == s.submissions
    requires s'.verdicts == s.verdicts && s'.checked == s.checked && s'.armed == s.armed
    requires RowsSound(s', t, Rows(s', t)) && Justified(s.log, s'.log.event) && ExecutionsSound(s')
    ensures Inv(s')
  {
    if t.DockerBroker? {
      RowsFrame(s, s', SshBroker, s.ssh);
    } else {
      RowsFrame(s, s', DockerBroker, s.docker);
    }
    SubmissionsFrame(s, s');
    ApprovalsFrame(s, s');
    VerdictsFrame(s, s');
  }

  lemma CancelKeeps(s: State, t: Target, nonce: Nonce)
    requires Inv(s)
    ensures Inv(CancelCapability(s, t, nonce))
  {
    if nonce in Rows(s, t) {
      CancelTakesEffect(s, t, nonce, CancelCapability(s, t, nonce));
    }
  }

  lemma CancelTakesEffect(s: State, t: Target, nonce: Nonce, s': State)
    requires Inv(s) && nonce in Rows(s, t)
    requires s' == Logged(WithRows(s, t, Cancel(Rows(s, t), nonce)), Cancelled(nonce))
    ensures Inv(s')
  {
    assert nonce in s.issued && s.issued[nonce].target == t by { RowsKnown(s, t); }
    assert RowsSound(s', t, Rows(s', t)) by {
      RowsKnown(s, t);
      CancelledRows(s, s', t, Rows(s, t), nonce);
    }
    assert ExecutionsSound(s') by { ExecutionsFrame(s, s'); }
    RowStepKeeps(s, s', t, nonce);
  }

  lemma CancelledRows(s: State, s': State, t: Target, rows: Table, n: Nonce)
    requires RowsSound(s, t, rows) && n in rows && s'.issued == s.issued && s'.log == Then(s.log, Cancelled(n))
    ensures RowsSound(s', t, Cancel(rows, n))
  {
  }

  /** Only the approver's table, its messages and the history may differ. */
  ghost predicate ApproverOnly(s: State, s': State) {
    && s'.issued == s.issued && s'.generation == s.generation
    && s'.docker == s.docker && s'.ssh == s.ssh && s'.submissions == s.submissions
    && s'.checked == s.checked && s'.armed == s.armed && s'.executions == s.executions
    && (s'.log == s.log
        || (s'.log.Then? && s'.log.before == s.log && (s'.log.event.Shown? || s'.log.event.Recorded?)))
  }

  /** A step of the approver: what is left to check is its own table and the history. */
  lemma ApproverStepKeeps(s: State, s': State)
    requires Inv(s) && ApproverOnly(s, s')
    requires ApprovalsSound(s') && SendingSound(s') && LogSound(s')
    requires s'.verdicts == s.verdicts || VerdictsSound(s')
    ensures Inv(s')
  {
    RowsFrame(s, s', DockerBroker, s.docker);
    RowsFrame(s, s', SshBroker, s.ssh);
    SubmissionsFrame(s, s');
    if !VerdictsSound(s') { VerdictsFrame(s, s'); }
    ExecutionsFrame(s, s');
  }

  lemma ApproverCreateKeeps(s: State, sub: Submission, token: Token, floorOk: bool, s': State)
    requires Inv(s) && s' == ApproverCreate(s, sub, token, floorOk)
    ensures Inv(s')
  {
    CreatedApprovals(s, sub, token, floorOk);
    ApproverStepKeeps(s, s');
  }

  lemma CreatedApprovals(s: State, sub: Submission, token: Token, floorOk: bool)
    requires SubmissionsSound(s) && ApprovalsSound(s) && SendingSound(s) && LogSound(s)
    ensures ApprovalsSound(ApproverCreate(s, sub, token, floorOk)) && SendingSound(ApproverCreate(s, sub, token, floorOk))
    ensures LogSound(ApproverCreate(s, sub, token, floorOk))
  {
  }

  lemma PromptShownKeeps(s: State, nonce: Nonce, s': State)
    requires Inv(s) && s' == PromptShown(s, nonce)
    ensures Inv(s')
  {
    if s' != s {
      PromptShownApprovals(s, nonce);
      PromptShownLog(s, nonce);
      ApproverStepKeeps(s, s');
    }
  }

  lemma PromptShownApprovals(s: State, nonce: Nonce)
    requires ApprovalsSound(s) && SendingSound(s) && PromptShown(s, nonce) != s
    ensures ApprovalsSound(PromptShown(s, nonce)) && SendingSound(PromptShown(s, nonce))
  {
    var s' := PromptShown(s, nonce);
    LogGrows(s, s');
  }

  lemma PromptShownLog(s: State, nonce: Nonce)
    requires TicketsSound(s) && ApprovalsSound(s) && LogSound(s) && PromptShown(s, nonce) != s
    ensures LogSound(PromptShown(s, nonce))
  {
    var a := s.approvals[nonce];
    assert FromTicket(s, nonce, a.target, a.binding);
  }

  lemma PromptReturnsKeeps(s: State, nonce: Nonce, ok: bool, s': State)
    requires Inv(s) && s' == PromptReturns(s, nonce, ok)
    ensures Inv(s')
  {
    PromptReturnsApprovals(s, nonce, ok);
    ApproverStepKeeps(s, s');
  }

  lemma PromptReturnsApprovals(s: State, nonce: Nonce, ok: bool)
    requires ApprovalsSound(s) && SendingSound(s) && LogSound(s)
    ensures ApprovalsSound(PromptReturns(s, nonce, ok)) && SendingSound(PromptReturns(s, nonce, ok))
    ensures LogSound(PromptReturns(s, nonce, ok))
  {
  }

  lemma ClickKeeps(s: State, nonce: Nonce, token: Token, sender: User, decision: Decision)
    requires Inv(s)
    ensures Inv(Click(s, nonce, token, sender, decision))
  {
    var s' := Click(s, nonce, token, sender, decision);
    if s' != s {
      ClickVerdicts(s, nonce, token, sender, decision);
      ClickApprovals(s, nonce, token, sender, decision);
      ClickLog(s, nonce, token, sender, decision);
      ApproverStepKeeps(s, s');
    }
  }

  lemma ClickVerdicts(s: State, nonce: Nonce, token: Token, sender: User, decision: Decision)
    requires ApprovalsSound(s) && VerdictsSound(s) && Click(s, nonce, token, sender, decision) != s
    ensures VerdictsSound(Click(s, nonce, token, sender, decision))
  {
    var s' := Click(s, nonce, token, sender, decision);
    forall v | VerdictSound(s, v) ensures VerdictSound(s', v) {
    }
    var a := s.approvals[nonce];
    assert VerdictSound(s', Verdict(nonce, a.target, a.binding, decision));
  }

  lemma ClickApprovals(s: State, nonce: Nonce, token: Token, sender: User, decision: Decision)
    requires ApprovalsSound(s) && SendingSound(s) && Click(s, nonce, token, sender, decision) != s
    ensures ApprovalsSound(Click(s, nonce, token, sender, decision))
    ensures SendingSound(Click(s, nonce, token, sender, decision))
  {
    var s' := Click(s, nonce, token, sender, decision);
    LogGrows(s, s');
  }

  lemma ClickLog(s: State, nonce: Nonce, token: Token, sender: User, decision: Decision)
    requires TicketsSound(s) && ApprovalsSound(s) && LogSound(s) && Click(s, nonce, token, sender, decision) != s
    ensures LogSound(Click(s, nonce, token, sender, decision))
  {
    var a := s.approvals[nonce];
    assert FromTicket(s, nonce, a.target, a.binding);
  }

  lemma AcceptApplyKeeps(s: State, v: Verdict, g: Generation)
    requires Inv(s)
    ensures Inv(AcceptApply(s, v, g))
  {
    if (v, g) in s.armed && Undecided(Rows(s, v.target), v.nonce, v.binding.(generation := g), s.now) {
      DecidedUnderOneGeneration(s, v, g);
      VerdictShape(s, v);
      VerdictTakesEffect(s, v, AcceptApply(s, v, v.binding.generation));
      VerdictKeeps(s, v, AcceptApply(s, v, v.binding.generation));
    }
  }

  /** Four reads of the generation, in order: issue <= submission = check <= statement. The row matches
      only when the first equals the last, so they are all equal. */
  lemma DecidedUnderOneGeneration(s: State, v: Verdict, g: Generation)
    requires Inv(s) && (v, g) in s.armed
    requires Undecided(Rows(s, v.target), v.nonce, v.binding.(generation := g), s.now)
    ensures v.binding.generation == g == s.issued[v.nonce].binding.generation <= s.generation
    ensures s.issued[v.nonce] == Ticket(v.target, v.binding, s.issued[v.nonce].request)
  {
    var rows := Rows(s, v.target);
    assert RowsSound(s, v.target, rows);
    assert VerdictSound(s, v);
  }

  /** The event a verdict that takes effect adds. */
  function Settlement(s: State, v: Verdict): Event
    requires v.nonce in Rows(s, v.target)
  {
    var g := v.binding.generation;
    var expiresAt := Rows(s, v.target)[v.nonce].expiresAt;
    if v.decision.Approved? then Granted(v.nonce, v.target, v.binding, s.now, expiresAt, g, g, s.generation)
    else Refused(v.nonce, v.target, v.binding, s.now, expiresAt, g, g, s.generation)
  }

  lemma VerdictRows(s: State, v: Verdict, s': State)
    requires Inv(s) && Undecided(Rows(s, v.target), v.nonce, v.binding, s.now)
    requires Adds(s, s') && s'.issued == s.issued && s'.log.event == Settlement(s, v)
    requires Rows(s', v.target) == Settled(s, v)
    ensures RowsSound(s', v.target, Rows(s', v.target))
  {
    var rows := Rows(s, v.target);
    RowsKnown(s, v.target);
    if v.decision.Approved? {
      GrantedRows(s, s', v.target, rows, v.nonce, v.binding, s.now);
    } else {
      RefusedRows(s, s', v.target, rows, v.nonce, v.binding, s.now);
    }
  }

  /** What the verdict's statement changes, and what it leaves alone. */
  ghost predicate VerdictChange(s: State, v: Verdict, s': State)
    requires v.nonce in Rows(s, v.target)
  {
    && Adds(s, s') && s'.log.event == Settlement(s, v)
    && s'.issued == s.issued && s'.generation == s.generation && s'.executions == s.executions
    && s'.approvals == s.approvals && s'.sending == s.sending && s'.submissions == s.submissions
    && s'.verdicts == s.verdicts && s'.checked == s.checked && s'.armed == s.armed
    && Rows(s', v.target) == Settled(s, v)
    && Rows(s', Other(v.target)) == Rows(s, Other(v.target))
  }

  function Other(t: Target): Target {
    if t.DockerBroker? then SshBroker else DockerBroker
  }

  lemma OneTableOneEvent(s: State, t: Target, rows: Table, e: Event, acks: set<(Nonce, Decision)>, s': State)
    requires s' == Logged(WithRows(s, t, rows), e).(acks := acks)
    ensures Adds(s, s') && s'.log.event == e && Rows(s', t) == rows && Rows(s', Other(t)) == Rows(s, Other(t))
    ensures s'.issued == s.issued && s'.generation == s.generation && s'.executions == s.executions
    ensures s'.approvals == s.approvals && s'.sending == s.sending && s'.submissions == s.submissions
    ensures s'.verdicts == s.verdicts && s'.checked == s.checked && s'.armed == s.armed
  {
    assert s.log < s'.log;
  }

  /** The row after the verdict. */
  function Settled(s: State, v: Verdict): Table {
    if v.decision.Approved? then Approve(Rows(s, v.target), v.nonce, v.binding, s.now)
    else CancelBound(Rows(s, v.target), v.nonce, v.binding, s.now)
  }

  lemma VerdictShape(s: State, v: Verdict)
    requires (v, v.binding.generation) in s.armed
    requires Undecided(Rows(s, v.target), v.nonce, v.binding, s.now)
    ensures AcceptApply(s, v, v.binding.generation)
      == Logged(WithRows(s, v.target, Settled(s, v)), Settlement(s, v)).(acks := s.acks + {(v.nonce, v.decision)})
  {
    assert v.binding.(generation := v.binding.generation) == v.binding;
  }

  lemma VerdictTakesEffect(s: State, v: Verdict, s': State)
    requires Undecided(Rows(s, v.target), v.nonce, v.binding, s.now)
    requires s' == Logged(WithRows(s, v.target, Settled(s, v)), Settlement(s, v)).(acks := s.acks + {(v.nonce, v.decision)})
    ensures VerdictChange(s, v, s')
  {
    OneTableOneEvent(s, v.target, Settled(s, v), Settlement(s, v), s.acks + {(v.nonce, v.decision)}, s');
  }

  lemma VerdictKeeps(s: State, v: Verdict, s': State)
    requires Inv(s) && (v, v.binding.generation) in s.armed && v.binding.generation <= s.generation
    requires Undecided(Rows(s, v.target), v.nonce, v.binding, s.now) && VerdictChange(s, v, s')
    ensures Inv(s')
  {
    RowsKnown(s, v.target);
    VerdictJustified(s, v);
    VerdictRows(s, v, s');
    ExecutionsFrame(s, s');
    RowStepKeeps(s, s', v.target, v.nonce);
  }

  lemma RowsKnown(s: State, t: Target)
    requires Inv(s)
    ensures RowsSound(s, t, Rows(s, t))
  {
  }

  lemma VerdictJustified(s: State, v: Verdict)
    requires Inv(s) && (v, v.binding.generation) in s.armed && v.binding.generation <= s.generation
    requires Undecided(Rows(s, v.target), v.nonce, v.binding, s.now)
    ensures Justified(s.log, Settlement(s, v))
  {
    RowsKnown(s, v.target);
    assert VerdictSound(s, v);
    assert v == Verdict(v.nonce, v.target, v.binding, v.decision);
  }

  lemma GrantedRows(s: State, s': State, t: Target, rows: Table, n: Nonce, b: Binding, now: Time)
    requires RowsSound(s, t, rows) && Undecided(rows, n, b, now) && s'.issued == s.issued
    requires Adds(s, s') && s'.log.event.Granted? && s'.log.event.nonce == n
    requires s'.log.event.target == t && s'.log.event.binding == b
    ensures RowsSound(s', t, Approve(rows, n, b, now))
  {
  }

  lemma RefusedRows(s: State, s': State, t: Target, rows: Table, n: Nonce, b: Binding, now: Time)
    requires RowsSound(s, t, rows) && Undecided(rows, n, b, now) && s'.issued == s.issued
    requires Adds(s, s') && s'.log.event.Refused? && s'.log.event.nonce == n
    ensures RowsSound(s', t, CancelBound(rows, n, b, now))
  {
  }

  lemma ExecutePollKeeps(s: State, thread: Thread)
    requires Inv(s)
    ensures Inv(ExecutePoll(s, thread))
  {
    if thread in s.executions && s.executions[thread].phase.Waiting? {
      var x := s.executions[thread];
      if Claimable(Rows(s, x.target), x.nonce, x.binding, s.now) {
        PollShape(s, thread, x);
        ClaimShape(s, thread, x, ExecutePoll(s, thread));
        PollClaims(s, thread, x, ExecutePoll(s, thread));
      } else {
        PollWaits(s, thread, x, ExecutePoll(s, thread));
      }
    }
  }

  lemma PollWaits(s: State, thread: Thread, x: Execution, s': State)
    requires Inv(s) && thread in s.executions && s.executions[thread] == x && x.phase.Waiting?
    requires !Claimable(Rows(s, x.target), x.nonce, x.binding, s.now) && s' == ExecutePoll(s, thread)
    ensures Inv(s')
  {
    PollShape(s, thread, x);
    if s' != s {
      assert ExecutionsSound(s') by { ExecutionsFrame(s, s'); }
      assert SubmissionsSound(s') by { SubmissionsFrame(s, s'); }
      assert VerdictsSound(s') by { VerdictsFrame(s, s'); }
      StableKeeps(s, s');
    }
  }

  /** What a claiming poll changes. */
  ghost predicate ClaimChange(s: State, thread: Thread, x: Execution, s': State)
    requires x.nonce in Rows(s, x.target)
  {
    var row := Rows(s, x.target)[x.nonce];
    && Adds(s, s')
    && s'.log.event == Claimed(x.nonce, x.target, x.binding, row.request, s.now, row.expiresAt, s.generation)
    && s'.issued == s.issued && s'.generation == s.generation
    && s'.approvals == s.approvals && s'.sending == s.sending && s'.submissions == s.submissions
    && s'.verdicts == s.verdicts && s'.checked == s.checked && s'.armed == s.armed
    && Rows(s', x.target) == Claim(Rows(s, x.target), x.nonce, x.binding, s.now)
    && Rows(s', Other(x.target)) == Rows(s, Other(x.target))
    && s'.executions == s.executions[thread := x.(phase := Sealed(row.request))]
  }

  lemma OneTableOneClaim(s: State, t: Target, rows: Table, e: Event, xs: map<Thread, Execution>, s': State)
    requires s' == Logged(WithRows(s, t, rows), e).(executions := xs)
    ensures Adds(s, s') && s'.log.event == e && s'.executions == xs
    ensures s'.issued == s.issued && s'.generation == s.generation && s'.approvals == s.approvals
    ensures s'.sending == s.sending && s'.submissions == s.submissions && s'.verdicts == s.verdicts
    ensures s'.checked == s.checked && s'.armed == s.armed
    ensures Rows(s', t) == rows && Rows(s', Other(t)) == Rows(s, Other(t))
  {
    assert s.log < s'.log;
  }

  lemma ClaimShape(s: State, thread: Thread, x: Execution, s': State)
    requires Claimable(Rows(s, x.target), x.nonce, x.binding, s.now)
    requires var row := Rows(s, x.target)[x.nonce];
      s' == Logged(WithRows(s, x.target, Claim(Rows(s, x.target), x.nonce, x.binding, s.now)),
                   Claimed(x.nonce, x.target, x.binding, row.request, s.now, row.expiresAt, s.generation))
              .(executions := s.executions[thread := x.(phase := Sealed(row.request))])
    ensures ClaimChange(s, thread, x, s')
  {
    var row := Rows(s, x.target)[x.nonce];
    OneTableOneClaim(s, x.target, Claim(Rows(s, x.target), x.nonce, x.binding, s.now),
                     Claimed(x.nonce, x.target, x.binding, row.request, s.now, row.expiresAt, s.generation),
                     s.executions[thread := x.(phase := Sealed(row.request))], s');
  }

  lemma PollClaims(s: State, thread: Thread, x: Execution, s': State)
    requires Inv(s) && thread in s.executions && s.executions[thread] == x && x.phase.Waiting?
    requires Claimable(Rows(s, x.target), x.nonce, x.binding, s.now) && ClaimChange(s, thread, x, s')
    ensures Inv(s')
  {
    ClaimJustified(s, x.target, x.nonce, x.binding);
    ClaimedHere(s, x.target, x.nonce, x.binding, s');
    ClaimedExecutions(s, thread, x, s', Rows(s, x.target)[x.nonce].request);
    RowStepKeeps(s, s', x.target, x.nonce);
  }

  lemma ClaimedHere(s: State, t: Target, n: Nonce, b: Binding, s': State)
    requires Inv(s) && Claimable(Rows(s, t), n, b, s.now) && s'.issued == s.issued
    requires Adds(s, s') && s'.log.event.Claimed? && s'.log.event.nonce == n
    ensures RowsSound(s', t, Claim(Rows(s, t), n, b, s.now))
  {
    RowsKnown(s, t);
    ClaimedRows(s, s', t, Rows(s, t), n, b, s.now);
  }

  lemma ClaimJustified(s: State, t: Target, n: Nonce, b: Binding)
    requires Inv(s) && Claimable(Rows(s, t), n, b, s.now)
    ensures var row := Rows(s, t)[n];
      Justified(s.log, Claimed(n, t, b, row.request, s.now, row.expiresAt, s.generation))
    ensures n in s.issued && s.issued[n].target == t && !ClosedIn(s.log, n)
  {
    RowsKnown(s, t);
  }

  lemma ClaimedRows(s: State, s': State, t: Target, rows: Table, n: Nonce, b: Binding, now: Time)
    requires RowsSound(s, t, rows) && Claimable(rows, n, b, now) && s'.issued == s.issued
    requires Adds(s, s') && s'.log.event.Claimed? && s'.log.event.nonce == n
    ensures RowsSound(s', t, Claim(rows, n, b, now))
  {
  }

  lemma ClaimedExecutions(s: State, thread: Thread, x: Execution, s': State, r: Request)
    requires ExecutionsSound(s) && LogSound(s) && !ClosedIn(s.log, x.nonce)
    requires thread in s.executions && s.executions[thread] == x && x.phase.Waiting?
    requires Adds(s, s') && s'.generation == s.generation
    requires s'.executions == s.executions[thread := x.(phase := Sealed(r))]
    requires s'.log.event.Claimed? && s'.log.event.nonce == x.nonce && s'.log.event.target == x.target
    requires s'.log.event.binding == x.binding && s'.log.event.request == r
    ensures ExecutionsSound(s')
  {
  }

  lemma PollShape(s: State, thread: Thread, x: Execution)
    requires thread in s.executions && s.executions[thread] == x && x.phase.Waiting?
    ensures var s' := ExecutePoll(s, thread);
      var rows := Rows(s, x.target);
      if Claimable(rows, x.nonce, x.binding, s.now) then
        s' == Logged(WithRows(s, x.target, Claim(rows, x.nonce, x.binding, s.now)),
                     Claimed(x.nonce, x.target, x.binding, rows[x.nonce].request, s.now, rows[x.nonce].expiresAt, s.generation))
                .(executions := s.executions[thread := x.(phase := Sealed(rows[x.nonce].request))])
      else s' == s || s' == s.(executions := s.executions - {thread})
  {
  }

  lemma ExecuteRunKeeps(s: State, thread: Thread, checksPass: bool)
    requires Inv(s)
    ensures Inv(ExecuteRun(s, thread, checksPass))
  {
    var s' := ExecuteRun(s, thread, checksPass);
    if s' != s {
      RanOnce(s, thread, checksPass);
      RanElsewhere(s, s');
    }
  }

  lemma RanOnce(s: State, thread: Thread, checksPass: bool)
    requires ExecutionsSound(s) && LogSound(s)
    ensures ExecutionsSound(ExecuteRun(s, thread, checksPass)) && LogSound(ExecuteRun(s, thread, checksPass))
    ensures var s' := ExecuteRun(s, thread, checksPass);
      s'.log == s.log || (Adds(s, s') && s'.log.event.Executed?)
  {
    LogGrows(s, ExecuteRun(s, thread, checksPass));
  }

  lemma RanElsewhere(s: State, s': State)
    requires Inv(s) && s' == s.(log := s'.log, executions := s'.executions)
    requires s'.log == s.log || (Adds(s, s') && s'.log.event.Executed?)
    requires ExecutionsSound(s') && LogSound(s')
    ensures Inv(s')
  {
    RowsFrame(s, s', DockerBroker, s.docker);
    RowsFrame(s, s', SshBroker, s.ssh);
    SubmissionsFrame(s, s');
    ApprovalsFrame(s, s');
    VerdictsFrame(s, s');
  }

  lemma RestartKeeps(s: State, t: Target)
    requires Inv(s)
    ensures Inv(Restart(s, t))
  {
    var s' := Restart(s, t);
    RestartedRows(s, s', t, Rows(s, t));
    if t.DockerBroker? {
      RowsFrame(s, s', SshBroker, s.ssh);
    } else {
      RowsFrame(s, s', DockerBroker, s.docker);
    }
    SubmissionsFrame(s, s');
    ApprovalsFrame(s, s');
    VerdictsFrame(s, s');
    ExecutionsFrame(s, s');
  }

  lemma RestartedRows(s: State, s': State, t: Target, rows: Table)
    requires RowsSound(s, t, rows) && s'.issued == s.issued && s'.log == s.log
    ensures RowsSound(s', t, CancelGeneration(rows, s.generation))
  {
  }

  /** The steps that touch no row, no approval and no history. */
  predicate IsQuiet(step: Step) {
    step.DoExecuteStart? || step.DoExecuteEnd? || step.BumpGeneration? || step.Tick? || step.SetFeatures?
    || step.SetApprovers? || step.LoseSubmission?
  }

  predicate CarriesVerdict(step: Step) {
    step.DoAcceptCheck? || step.DoAcceptRead? || step.LoseVerdict? || step.DoResend?
  }

  /** What a quiet step may change: threads, clocks, settings and lost submissions. */
  ghost predicate QuietChange(s: State, s': State) {
    && Stable(s, s') && s'.submissions <= s.submissions
    && s'.verdicts == s.verdicts && s'.checked == s.checked && s'.armed == s.armed
  }

  lemma StartIsQuiet(s: State, step: Step)
    requires step.DoExecuteStart?
    ensures QuietChange(s, Do(s, step))
  {
  }

  lemma EndIsQuiet(s: State, thread: Thread)
    ensures QuietChange(s, ExecuteEnd(s, thread))
  {
  }

  lemma SurroundingsAreQuiet(s: State, step: Step)
    requires IsQuiet(step) && !step.DoExecuteStart? && !step.DoExecuteEnd?
    ensures QuietChange(s, Do(s, step))
  {
  }

  lemma QuietStepStable(s: State, step: Step)
    requires IsQuiet(step)
    ensures QuietChange(s, Do(s, step))
  {
    if step.DoExecuteStart? {
      StartIsQuiet(s, step);
    } else if step.DoExecuteEnd? {
      EndIsQuiet(s, step.thread);
    } else {
      SurroundingsAreQuiet(s, step);
    }
  }

  lemma QuietStepKeeps(s: State, step: Step, s': State)
    requires Inv(s) && IsQuiet(step) && s' == Do(s, step)
    ensures Inv(s')
  {
    QuietStepStable(s, step);
    assert SubmissionsSound(s') by { SubmissionsFrame(s, s'); }
    assert VerdictsSound(s') by { VerdictsFrame(s, s'); }
    assert ExecutionsSound(s') by { QuietExecutions(s, step); }
    StableKeeps(s, s');
  }

  lemma StartExecutions(s: State, step: Step)
    requires ExecutionsSound(s) && step.DoExecuteStart?
    ensures ExecutionsSound(Do(s, step))
  {
  }

  lemma EndExecutions(s: State, thread: Thread)
    requires ExecutionsSound(s)
    ensures ExecutionsSound(ExecuteEnd(s, thread))
  {
  }

  lemma SurroundingsExecutions(s: State, step: Step)
    requires ExecutionsSound(s) && IsQuiet(step) && !step.DoExecuteStart? && !step.DoExecuteEnd?
    ensures ExecutionsSound(Do(s, step))
  {
    assert Do(s, step).executions == s.executions && Do(s, step).log == s.log && Do(s, step).generation >= s.generation;
  }

  lemma QuietExecutions(s: State, step: Step)
    requires ExecutionsSound(s) && IsQuiet(step)
    ensures ExecutionsSound(Do(s, step))
  {
    if step.DoExecuteStart? {
      StartExecutions(s, step);
    } else if step.DoExecuteEnd? {
      EndExecutions(s, step.thread);
    } else {
      SurroundingsExecutions(s, step);
    }
  }

  /** Only messages and threads that carry verdicts may differ. */
  ghost predicate OnlyCarries(s: State, s': State) {
    Stable(s, s') && s'.submissions == s.submissions && s'.executions == s.executions
  }

  lemma CarryKeeps(s: State, s': State)
    requires Inv(s) && OnlyCarries(s, s') && VerdictsSound(s')
    ensures Inv(s')
  {
    SubmissionsFrame(s, s');
    ExecutionsFrame(s, s');
    StableKeeps(s, s');
  }

  lemma AcceptCheckCarries(s: State, v: Verdict)
    ensures OnlyCarries(s, AcceptCheck(s, v))
    ensures VerdictsSound(s) ==> VerdictsSound(AcceptCheck(s, v))
  {
    forall w | VerdictSound(s, w) ensures VerdictSound(AcceptCheck(s, v), w) {
    }
  }

  lemma AcceptReadCarries(s: State, v: Verdict)
    ensures OnlyCarries(s, AcceptRead(s, v))
    ensures VerdictsSound(s) ==> VerdictsSound(AcceptRead(s, v))
  {
    forall w | VerdictSound(s, w) ensures VerdictSound(AcceptRead(s, v), w) {
    }
  }

  lemma ResendCarries(s: State, nonce: Nonce)
    ensures OnlyCarries(s, Resend(s, nonce))
    ensures VerdictsSound(s) && ApprovalsSound(s) ==> VerdictsSound(Resend(s, nonce))
  {
    forall w | VerdictSound(s, w) ensures VerdictSound(Resend(s, nonce), w) {
    }
  }

  lemma LossCarries(s: State, v: Verdict)
    ensures OnlyCarries(s, s.(verdicts := s.verdicts - {v}))
    ensures VerdictsSound(s) ==> VerdictsSound(s.(verdicts := s.verdicts - {v}))
  {
    forall w | VerdictSound(s, w) ensures VerdictSound(s.(verdicts := s.verdicts - {v}), w) {
    }
  }

  lemma VerdictStepKeeps(s: State, step: Step, s': State)
    requires Inv(s) && CarriesVerdict(step) && s' == Do(s, step)
    ensures Inv(s')
  {
    match step
    case DoAcceptCheck(v) => AcceptCheckCarries(s, v); CarryKeeps(s, s');
    case DoAcceptRead(v) => AcceptReadCarries(s, v); CarryKeeps(s, s');
    case DoResend(nonce) => ResendCarries(s, nonce); CarryKeeps(s, s');
    case LoseVerdict(v) => LossCarries(s, v); CarryKeeps(s, s');
  }

  lemma MarkGrantedKeeps(s: State, nonce: Nonce, d: Decision, s': State)
    requires Inv(s) && s' == MarkGranted(s, nonce, d)
    ensures Inv(s')
  {
    MarkGrantedApprovals(s, nonce, d);
    ApproverStepKeeps(s, s');
  }

  lemma MarkGrantedApprovals(s: State, nonce: Nonce, d: Decision)
    requires ApprovalsSound(s) && SendingSound(s) && LogSound(s)
    ensures ApprovalsSound(MarkGranted(s, nonce, d)) && SendingSound(MarkGranted(s, nonce, d))
    ensures LogSound(MarkGranted(s, nonce, d))
  {
  }

  // ---------------------------------------------------------------- every run

  predicate IsApproverStep(step: Step) {
    step.DoApproverCreate? || step.DoPromptShown? || step.DoPromptReturns? || step.DoClick? || step.DoMarkGranted?
  }

  predicate IsPreparation(step: Step) {
    step.DoPrepareIssue? || step.DoPrepareSubmit? || step.DoPrepareFinish? || step.DoCancel? || step.DoRestart?
  }

  lemma PreparationKeeps(s: State, step: Step)
    requires Inv(s) && IsPreparation(step)
    ensures Inv(Do(s, step))
  {
    match step
    case DoPrepareIssue(t, f, r, u, session, nonce) => PrepareIssueKeeps(s, t, f, r, u, session, nonce);
    case DoPrepareSubmit(nonce) => PrepareSubmitKeeps(s, nonce, Do(s, step));
    case DoPrepareFinish(nonce, answered) => PrepareFinishKeeps(s, nonce, answered);
    case DoCancel(t, n) => CancelKeeps(s, t, n);
    case DoRestart(t) => RestartKeeps(s, t);
  }

  lemma BrokerStepKeeps(s: State, step: Step)
    requires Inv(s) && !IsApproverStep(step) && !IsPreparation(step)
    ensures Inv(Do(s, step))
  {
    match step
    case DoAcceptApply(v, g) => AcceptApplyKeeps(s, v, g);
    case DoExecutePoll(k) => ExecutePollKeeps(s, k);
    case DoExecuteRun(k, ok) => ExecuteRunKeeps(s, k, ok);
    case _ => OtherStepKeeps(s, step);
  }

  lemma StepKeeps(s: State, step: Step)
    requires Inv(s)
    ensures Inv(Do(s, step))
  {
    if IsApproverStep(step) {
      TableStepKeeps(s, step);
    } else if IsPreparation(step) {
      PreparationKeeps(s, step);
    } else {
      BrokerStepKeeps(s, step);
    }
  }

  lemma TableStepKeeps(s: State, step: Step)
    requires Inv(s) && IsApproverStep(step)
    ensures Inv(Do(s, step))
  {
    var s' := Do(s, step);
    match step
    case DoApproverCreate(sub, token, floorOk) => ApproverCreateKeeps(s, sub, token, floorOk, s');
    case DoPromptShown(nonce) => PromptShownKeeps(s, nonce, s');
    case DoPromptReturns(nonce, ok) => PromptReturnsKeeps(s, nonce, ok, s');
    case DoClick(nonce, token, sender, d) => ClickKeeps(s, nonce, token, sender, d);
    case DoMarkGranted(nonce, d) => MarkGrantedKeeps(s, nonce, d, s');
  }

  lemma OtherStepKeeps(s: State, step: Step)
    requires Inv(s) && (CarriesVerdict(step) || IsQuiet(step))
    ensures Inv(Do(s, step))
  {
    if CarriesVerdict(step) {
      VerdictStepKeeps(s, step, Do(s, step));
    } else {
      QuietStepKeeps(s, step, Do(s, step));
    }
  }

  lemma PrepareFinishKeeps(s: State, nonce: Nonce, answered: bool)
    requires Inv(s)
    ensures Inv(PrepareFinish(s, nonce, answered))
  {
    if nonce in s.issued {
      var s1 := if answered then s else CancelCapability(s, s.issued[nonce].target, nonce);
      CancelKeeps(s, s.issued[nonce].target, nonce);
      PreparingIsFree(s1, s.preparing - {nonce});
    }
  }

  lemma PreparingIsFree(s: State, preparing: set<Nonce>)
    requires Inv(s)
    ensures Inv(s.(preparing := preparing))
  {
  }

  lemma {:induction false} RunKeeps(steps: seq<Step>)
    ensures Inv(Run(steps))
  {
    if steps != [] {
      RunKeeps(steps[..|steps| - 1]);
      StepKeeps(Run(steps[..|steps| - 1]), steps[|steps| - 1]);
    }
  }


  // ---------------------------------------------------------------- what every run guarantees

  /** Every execution in every run has its full chain of custody. */
  lemma ExecutedWasApproved(steps: seq<Step>, at: Log)
    returns (shown: Log, record: Log, grant: Log, claim: Log)
    requires IsPrefix(at, Run(steps).log) && at.Then? && at.event.Executed?
    ensures Custody(at, shown, record, grant, claim)
  {
    RunKeeps(steps);
    PrefixIsJustified(at, Run(steps).log);
    shown, record, grant, claim := JustifiedExecutionHasCustody(at);
  }

  /** Per nonce, over every run: at most one recorded decision, at most one settlement, at most one of
      claim and refusal, at most one execution. */
  lemma OncePerNonce(steps: seq<Step>, n: Nonce)
    ensures var log := Run(steps).log;
      && Decisions(log, n) <= 1 && Settlements(log, n) <= 1 && Endings(log, n) <= 1
      && Executions(log, n) <= Endings(log, n)
  {
    RunKeeps(steps);
    AtMostOnce(Run(steps).log, n);
  }

  /** A recorded denial is final, also when its message is lost, late or expired: whatever happens before or after,
      the nonce is never granted, claimed or executed. */
  lemma DeniedIsNeverExecuted(steps: seq<Step>, denial: Verdict)
    requires RecordedIn(Run(steps).log, denial) && denial.decision.Denied?
    ensures !ExecutedIn(Run(steps).log, denial.nonce)
    ensures forall t, b, r :: !ClaimedIn(Run(steps).log, denial.nonce, t, b, r)
    ensures forall t, b :: !GrantedIn(Run(steps).log, denial.nonce, t, b)
  {
    RunKeeps(steps);
    DenialForbids(Run(steps).log, denial);
  }

  /** A refusal at the broker is always such a denial, for the same nonce and binding. */
  lemma RefusedWasDenied(steps: seq<Step>, refused: Log)
    requires IsPrefix(refused, Run(steps).log) && refused.Then? && refused.event.Refused?
    ensures RecordedIn(refused, Verdict(refused.event.nonce, refused.event.target, refused.event.binding, Denied))
    ensures !ExecutedIn(Run(steps).log, refused.event.nonce)
    ensures forall t, b, r :: !ClaimedIn(Run(steps).log, refused.event.nonce, t, b, r)
  {
    RunKeeps(steps);
    PrefixIsJustified(refused, Run(steps).log);
    RefusedNeverExecutes(refused, Run(steps).log, refused.event.nonce);
  }

  /** After a cancellation nothing is claimed, and only what was claimed before it can execute. */
  lemma CancelledIsNeverClaimed(steps: seq<Step>, cancelled: Log)
    requires IsPrefix(cancelled, Run(steps).log) && cancelled.Then? && cancelled.event.Cancelled?
    ensures forall t, b, r ::
      ClaimedIn(Run(steps).log, cancelled.event.nonce, t, b, r) <==> ClaimedIn(cancelled.before, cancelled.event.nonce, t, b, r)
    ensures ExecutedIn(Run(steps).log, cancelled.event.nonce) ==>
      exists t, b, r :: ClaimedIn(cancelled.before, cancelled.event.nonce, t, b, r)
  {
    RunKeeps(steps);
    var n := cancelled.event.nonce;
    NothingAfterClosing(cancelled, Run(steps).log, n);
    if ExecutedIn(Run(steps).log, n) {
      var t, b, r := ExecutionWasClaimed(Run(steps).log, n);
      assert ClaimedIn(cancelled.before, n, t, b, r);
    }
  }

  // ---------------------------------------------------------------- deliveries after the decision

  /** Everything that carries or repeats a verdict for this nonce. */
  predicate Delivers(step: Step, n: Nonce) {
    match step
    case DoResend(nonce) => nonce == n
    case DoAcceptCheck(v) => v.nonce == n
    case DoAcceptRead(v) => v.nonce == n
    case DoAcceptApply(v, _) => v.nonce == n
    case LoseVerdict(v) => v.nonce == n
    case _ => false
  }

  /** Only messages and waiting handlers differ. */
  ghost predicate SameDecisions(s: State, s': State) {
    && s'.docker == s.docker && s'.ssh == s.ssh && s'.log == s.log && s'.acks == s.acks
    && s'.approvals == s.approvals && s'.sending == s.sending && s'.executions == s.executions && s'.issued == s.issued
  }

  lemma ApplyIsInert(s: State, v: Verdict, g: Generation)
    requires Inv(s) && SettledIn(s.log, v.nonce)
    ensures AcceptApply(s, v, g) == s
  {
    RowsKnown(s, v.target);
    assert !Undecided(Rows(s, v.target), v.nonce, v.binding.(generation := g), s.now);
  }

  lemma ResendIsInert(s: State, n: Nonce)
    ensures SameDecisions(s, Resend(s, n))
  {
  }

  lemma CheckIsInert(s: State, v: Verdict)
    ensures SameDecisions(s, AcceptCheck(s, v))
  {
  }

  lemma ReadIsInert(s: State, v: Verdict)
    ensures SameDecisions(s, AcceptRead(s, v))
  {
  }

  /** Sending and checking a verdict decide nothing. */
  lemma CarryingIsInert(s: State, step: Step, n: Nonce)
    requires Delivers(step, n) && !step.DoAcceptApply?
    ensures SameDecisions(s, Do(s, step))
  {
    match step
    case DoResend(nonce) => ResendIsInert(s, nonce);
    case DoAcceptCheck(v) => CheckIsInert(s, v);
    case DoAcceptRead(v) => ReadIsInert(s, v);
    case LoseVerdict(v) =>
  }

  lemma DeliveryIsInert(before: State, s: State, step: Step, n: Nonce)
    requires Inv(s) && SettledIn(s.log, n) && Delivers(step, n) && SameDecisions(before, s)
    ensures SameDecisions(before, Do(s, step))
  {
    if step.DoAcceptApply? {
      ApplyIsInert(s, step.v, step.g);
    } else {
      CarryingIsInert(s, step, n);
    }
  }

  /** Once the broker settled a nonce, no delivery of any verdict for it, in any number, order and interleaving and
      under any generation, changes a table, the history, an answer or a running handler. */
  lemma {:induction false} RedeliveryIsInert(steps: seq<Step>, deliveries: seq<Step>, n: Nonce)
    requires SettledIn(Run(steps).log, n) && forall step | step in deliveries :: Delivers(step, n)
    ensures SameDecisions(Run(steps), Run(steps + deliveries))
  {
    if deliveries == [] {
      assert steps + deliveries == steps;
    } else {
      var rest, last := deliveries[..|deliveries| - 1], deliveries[|deliveries| - 1];
      RedeliveryIsInert(steps, rest, n);
      assert (steps + deliveries)[..|steps + deliveries| - 1] == steps + rest;
      RunKeeps(steps + rest);
      DeliveryIsInert(Run(steps), Run(steps + rest), last, n);
    }
  }
}
