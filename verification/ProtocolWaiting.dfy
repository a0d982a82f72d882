/**
 The brokers' tables change by the store's own statements, and a handler of the protocol waits as the store's wait
 loop does: until its capability can be claimed, stops being undecided, or its time is up.
 */
module ProtocolWaiting {
  import opened Collections
  import opened Capabilities
  import opened ApprovalLog
  import opened Protocol
  import opened ProtocolGenerations
  import opened ProtocolSafety

  // ---------------------------------------------------------------- each step is at most one statement per table

  /** The store call that a step makes at this broker. */
  function CallAt(s: State, step: Step, t: Target): Option<Call> {
    match step
    case DoPrepareIssue(t', f, r, u, session, n) =>
      if t' == t && Enabled(s, t, f) && n !in s.issued
      then Some(IssueCall(n, Binding(f, DigestOf(f, r), u, session, s.generation), r, s.now)) else None
    case DoPrepareFinish(n, answered) =>
      if !answered && n in s.preparing && n !in s.unsent && n in s.issued && s.issued[n].target == t
      then Some(CancelCall(n)) else None
    case DoAcceptApply(v, g) =>
      if v.target != t || (v, g) !in s.armed then None
      else if v.decision.Approved? then Some(ApproveCall(v.nonce, v.binding.(generation := g), s.now))
      else Some(DenyCall(v.nonce, v.binding.(generation := g), s.now))
    case DoExecutePoll(k) =>
      if k in s.executions && s.executions[k].phase.Waiting? && s.executions[k].target == t
      then Some(ClaimCall(s.executions[k].nonce, s.executions[k].binding, s.now)) else None
    case DoCancel(t', n) => if t' == t then Some(CancelCall(n)) else None
    case DoRestart(t') => if t' == t then Some(SupersedeCall(s.generation)) else None
    case _ => None
  }

  function Called(rows: Table, call: Option<Call>): Table {
    match call
    case None => rows
    case Some(c) => Apply(rows, c)
  }

  predicate IsWaiting(s: State, thread: Thread) {
    thread in s.executions && s.executions[thread].phase.Waiting?
  }

  predicate TouchesTables(step: Step) {
    step.DoPrepareIssue? || step.DoPrepareFinish? || step.DoAcceptApply? || step.DoExecutePoll? || step.DoCancel? || step.DoRestart?
  }

  lemma OthersKeepTables(s: State, step: Step)
    requires !TouchesTables(step)
    ensures Do(s, step).docker == s.docker && Do(s, step).ssh == s.ssh
  {
  }

  lemma RowsOfOne(s: State, t': Target, rows: Table, t: Target)
    ensures Rows(WithRows(s, t', rows), t) == if t' == t then rows else Rows(s, t)
  {
  }

  lemma IssueIsACall(s: State, t': Target, f: Feature, r: Request, u: User, session: Session, n: Nonce, t: Target)
    ensures Rows(PrepareIssue(s, t', f, r, u, session, n), t)
         == Called(Rows(s, t), CallAt(s, DoPrepareIssue(t', f, r, u, session, n), t))
  {
  }

  lemma CancelIsACall(s: State, t': Target, n: Nonce, t: Target)
    ensures Rows(CancelCapability(s, t', n), t) == if t' == t then Apply(Rows(s, t), CancelCall(n)) else Rows(s, t)
  {
    RowsOfOne(s, t', Cancel(Rows(s, t'), n), t);
  }

  lemma FinishIsACall(s: State, n: Nonce, answered: bool, t: Target)
    ensures Rows(PrepareFinish(s, n, answered), t) == Called(Rows(s, t), CallAt(s, DoPrepareFinish(n, answered), t))
  {
    if n in s.issued {
      CancelIsACall(s, s.issued[n].target, n, t);
    }
  }

  lemma ApplyIdles(s: State, v: Verdict, g: Generation, t: Target)
    requires (v, g) !in s.armed || !Undecided(Rows(s, v.target), v.nonce, v.binding.(generation := g), s.now)
    ensures AcceptApply(s, v, g) == s && Called(Rows(s, t), CallAt(s, DoAcceptApply(v, g), t)) == Rows(s, t)
  {
  }

  lemma RowsLogged(s: State, acks: set<(Nonce, Decision)>, t': Target, rows: Table, e: Event, t: Target)
    ensures Rows(Logged(WithRows(s.(acks := acks), t', rows), e), t) == if t' == t then rows else Rows(s, t)
  {
  }

  lemma ApplyIsACall(s: State, v: Verdict, g: Generation, t: Target)
    ensures Rows(AcceptApply(s, v, g), t) == Called(Rows(s, t), CallAt(s, DoAcceptApply(v, g), t))
  {
    var b := v.binding.(generation := g);
    var rows := Rows(s, v.target);
    if (v, g) in s.armed && Undecided(rows, v.nonce, b, s.now) {
      ApplyShape(s, v, g);
      var expiresAt, acks := rows[v.nonce].expiresAt, s.acks + {(v.nonce, v.decision)};
      if v.decision.Approved? {
        RowsLogged(s, acks, v.target, Approve(rows, v.nonce, b, s.now),
                   Granted(v.nonce, v.target, b, s.now, expiresAt, v.binding.generation, g, s.generation), t);
      } else {
        RowsLogged(s, acks, v.target, CancelBound(rows, v.nonce, b, s.now),
                   Refused(v.nonce, v.target, b, s.now, expiresAt, v.binding.generation, g, s.generation), t);
      }
    } else {
      ApplyIdles(s, v, g, t);
    }
  }

  /** What a poll does to the tables. */
  lemma PollTable(s: State, thread: Thread, x: Execution, t: Target)
    requires IsWaiting(s, thread) && x == s.executions[thread]
    ensures Rows(ExecutePoll(s, thread), t)
         == if x.target == t then Claim(Rows(s, t), x.nonce, x.binding, s.now) else Rows(s, t)
  {
    PollShape(s, thread, x);
    if Claimable(Rows(s, x.target), x.nonce, x.binding, s.now) {
      RowsOfOne(s, x.target, Claim(Rows(s, x.target), x.nonce, x.binding, s.now), t);
    }
  }

  lemma PollIsACall(s: State, k: Thread, t: Target)
    ensures Rows(ExecutePoll(s, k), t) == Called(Rows(s, t), CallAt(s, DoExecutePoll(k), t))
  {
    if IsWaiting(s, k) {
      PollTable(s, k, s.executions[k], t);
    }
  }

  lemma RestartIsACall(s: State, t': Target, t: Target)
    ensures Rows(Restart(s, t'), t) == Called(Rows(s, t), CallAt(s, DoRestart(t'), t))
  {
    RowsOfOne(s, t', CancelGeneration(Rows(s, t'), s.generation), t);
  }

  lemma BrokerStepIsAStoreCall(s: State, step: Step, t: Target)
    requires step.DoAcceptApply? || step.DoExecutePoll? || step.DoRestart?
    ensures Rows(Do(s, step), t) == Called(Rows(s, t), CallAt(s, step, t))
  {
    match step
    case DoAcceptApply(v, g) => ApplyIsACall(s, v, g, t);
    case DoExecutePoll(k) => PollIsACall(s, k, t);
    case DoRestart(t') => RestartIsACall(s, t', t);
  }

  lemma HermesStepIsAStoreCall(s: State, step: Step, t: Target)
    requires step.DoPrepareIssue? || step.DoPrepareFinish? || step.DoCancel?
    ensures Rows(Do(s, step), t) == Called(Rows(s, t), CallAt(s, step, t))
  {
    match step
    case DoPrepareIssue(t', f, r, u, session, n) => IssueIsACall(s, t', f, r, u, session, n, t);
    case DoPrepareFinish(n, answered) => FinishIsACall(s, n, answered, t);
    case DoCancel(t', n) => CancelIsACall(s, t', n, t);
  }

  /** Every step of the protocol acts on each broker's table as the store call it makes, if any. */
  lemma StepIsAStoreCall(s: State, step: Step, t: Target)
    ensures Rows(Do(s, step), t) == Called(Rows(s, t), CallAt(s, step, t))
  {
    if !TouchesTables(step) {
      OthersKeepTables(s, step);
    } else if step.DoAcceptApply? || step.DoExecutePoll? || step.DoRestart? {
      BrokerStepIsAStoreCall(s, step, t);
    } else {
      HermesStepIsAStoreCall(s, step, t);
    }
  }

  /** The calls of a run at one broker, oldest first. */
  function CallsAt(steps: seq<Step>, t: Target): seq<Call> {
    if steps == [] then [] else
    var rest, last := steps[..|steps| - 1], steps[|steps| - 1];
    CallsAt(rest, t) + match CallAt(Run(rest), last, t) case None => [] case Some(c) => [c]
  }

  lemma CalledNext(rows: Table, calls: seq<Call>, call: Option<Call>)
    ensures ApplyAll(rows, calls + match call case None => [] case Some(c) => [c]) == Called(ApplyAll(rows, calls), call)
  {
    match call
    case None => assert calls + [] == calls;
    case Some(c) => assert (calls + [c])[..|calls|] == calls;
  }

  /** In every run each broker's table is what the store makes of the run's calls. */
  lemma {:induction false} TablesFollowTheStore(steps: seq<Step>, t: Target)
    ensures Rows(Run(steps), t) == ApplyAll(map[], CallsAt(steps, t))
  {
    if steps != [] {
      var rest, last := steps[..|steps| - 1], steps[|steps| - 1];
      TablesFollowTheStore(rest, t);
      StepIsAStoreCall(Run(rest), last, t);
      CalledNext(map[], CallsAt(rest, t), CallAt(Run(rest), last, t));
    }
  }

  // ---------------------------------------------------------------- one poll

  predicate IsSealed(s: State, thread: Thread) {
    thread in s.executions && s.executions[thread].phase.Sealed?
  }

  /** The handler waits for this capability at this broker. */
  predicate WaitsFor(s: State, thread: Thread, t: Target, n: Nonce, b: Binding) {
    IsWaiting(s, thread) && s.executions[thread].target == t && s.executions[thread].nonce == n && s.executions[thread].binding == b
  }

  /** One poll of a waiting handler: it goes on waiting, with nothing changed, exactly while its row is there under its
      binding, neither approved nor closed nor expired, and its time is not up; it gets the sealed request exactly when
      the row was approved, open and unexpired; otherwise it ends. */
  lemma PollDecides(s: State, thread: Thread, x: Execution, s': State)
    requires IsWaiting(s, thread) && x == s.executions[thread] && s' == ExecutePoll(s, thread)
    ensures var rows := Rows(s, x.target);
      && (IsWaiting(s', thread) <==>
            && x.nonce in rows && rows[x.nonce].binding == x.binding && !rows[x.nonce].approved && !rows[x.nonce].consumed
            && s.now < rows[x.nonce].expiresAt && s.now < x.deadline)
      && (IsSealed(s', thread) <==>
            && x.nonce in rows && rows[x.nonce].binding == x.binding && rows[x.nonce].approved && !rows[x.nonce].consumed
            && s.now < rows[x.nonce].expiresAt)
      && (IsWaiting(s', thread) ==> s' == s)
      && (IsSealed(s', thread) ==> s'.executions[thread] == x.(phase := Sealed(rows[x.nonce].request)))
      && (thread in s'.executions ==> IsWaiting(s', thread) || IsSealed(s', thread))
  {
  }

  /** That is one pass of the store's wait loop, with the protocol's clock for both of its clocks. */
  lemma PollIsTheStoresPoll(s: State, thread: Thread, x: Execution, s': State)
    requires IsWaiting(s, thread) && x == s.executions[thread] && s' == ExecutePoll(s, thread)
    ensures IsWaiting(s', thread) <==> !Stops(Rows(s, x.target), x.nonce, x.binding, Poll(s.now, s.now, []), x.deadline)
    ensures Rows(s', x.target) == Claim(Rows(s, x.target), x.nonce, x.binding, s.now)
    ensures IsSealed(s', thread) <==> Claimable(Rows(s, x.target), x.nonce, x.binding, s.now)
  {
    PollDecides(s, thread, x, s');
    PollTable(s, thread, x, x.target);
  }

  /** A handler that gets a slot waits for five minutes, under the generation in force now. */
  lemma StartWaits(s: State, thread: Thread, t: Target, n: Nonce, f: Feature, digest: Digest, u: User, session: Session)
    requires f in s.features && Serves(t, f) && thread !in s.executions && SlotsUsed(s, t) < 4
    ensures var s' := Do(s, DoExecuteStart(thread, t, n, f, digest, u, session));
      && WaitsFor(s', thread, t, n, Binding(f, digest, u, session, s.generation))
      && s'.executions[thread].deadline == s.now + 300 && s'.executions == s.executions[thread := s'.executions[thread]]
  {
  }

  // ---------------------------------------------------------------- waiting over runs

  /** Nothing but its own poll and a restart of its broker ends a wait. */
  lemma OthersLeaveItWaiting(s: State, step: Step, thread: Thread)
    requires IsWaiting(s, thread) && step != DoExecutePoll(thread) && step != DoRestart(s.executions[thread].target)
    ensures thread in Do(s, step).executions && Do(s, step).executions[thread] == s.executions[thread]
  {
    if !MovesThreads(step) {
      OthersKeepThreads(s, step);
    } else if step.DoExecutePoll? {
      OtherPolls(s, step.thread, thread);
    }
  }

  lemma OtherPolls(s: State, poller: Thread, thread: Thread)
    requires thread in s.executions && poller != thread
    ensures thread in ExecutePoll(s, poller).executions && ExecutePoll(s, poller).executions[thread] == s.executions[thread]
  {
  }

  /** The row is still undecided for this handler, and its time is not up. */
  predicate MustWait(s: State, x: Execution) {
    && x.nonce in Rows(s, x.target) && s.now < x.deadline
    && var row := Rows(s, x.target)[x.nonce];
    row.binding == x.binding && !row.approved && !row.consumed && s.now < row.expiresAt
  }

  lemma StillWaits(s: State, step: Step, thread: Thread, x: Execution)
    requires IsWaiting(s, thread) && s.executions[thread] == x && step != DoRestart(x.target)
    requires step == DoExecutePoll(thread) ==> MustWait(s, x)
    ensures thread in Do(s, step).executions && Do(s, step).executions[thread] == x
  {
    if step == DoExecutePoll(thread) {
      PollDecides(s, thread, x, ExecutePoll(s, thread));
    } else {
      OthersLeaveItWaiting(s, step, thread);
    }
  }

  /** At each of its polls the handler must go on waiting. */
  ghost predicate MustWaitIn(steps: seq<Step>, more: seq<Step>, thread: Thread, x: Execution) {
    forall j | 0 <= j < |more| && more[j] == DoExecutePoll(thread) :: MustWait(Run(steps + more[..j]), x)
  }

  lemma MustWaitNext(steps: seq<Step>, more: seq<Step>, last: Step, thread: Thread, x: Execution)
    requires MustWaitIn(steps, more + [last], thread, x)
    ensures MustWaitIn(steps, more, thread, x) && (last == DoExecutePoll(thread) ==> MustWait(Run(steps + more), x))
  {
    var all := more + [last];
    assert all[..|more|] == more && all[|more|] == last;
    forall j | 0 <= j < |more| ensures all[..j] == more[..j] && all[j] == more[j] {
    }
  }

  lemma RunLast(all: seq<Step>, before: seq<Step>, last: Step)
    requires all == before + [last]
    ensures Run(all) == Do(Run(before), last)
  {
    assert all[..|all| - 1] == before;
  }

  lemma RunNext(steps: seq<Step>, more: seq<Step>, last: Step)
    ensures Run(steps + (more + [last])) == Do(Run(steps + more), last)
  {
    assert steps + (more + [last]) == steps + more + [last];
    RunLast(steps + (more + [last]), steps + more, last);
  }

  /** Over any steps, a waiting handler goes on waiting as long as its broker is not restarted and at each of its polls
      the row is undecided and unexpired and its time is not up. */
  lemma {:induction false} WaitGoesOn(steps: seq<Step>, more: seq<Step>, thread: Thread, x: Execution)
    requires IsWaiting(Run(steps), thread) && Run(steps).executions[thread] == x
    requires DoRestart(x.target) !in more && MustWaitIn(steps, more, thread, x)
    ensures thread in Run(steps + more).executions && Run(steps + more).executions[thread] == x
  {
    if more == [] {
      assert steps + more == steps;
    } else {
      var rest, last := more[..|more| - 1], more[|more| - 1];
      assert rest + [last] == more && last in more;
      MustWaitNext(steps, rest, last, thread, x);
      WaitGoesOn(steps, rest, thread, x);
      RunNext(steps, rest, last);
      StillWaits(Run(steps + rest), last, thread, x);
    }
  }

  // ---------------------------------------------------------------- a grant reaches its handler

  /** The step makes no call at this broker that touches the approved row. */
  predicate SparedAt(s: State, step: Step, t: Target, n: Nonce, row: Capability) {
    var call := CallAt(s, step, t); call.Some? ==> Spares(call.value, n, row)
  }

  /** No step in between does. */
  ghost predicate SparedIn(steps: seq<Step>, more: seq<Step>, t: Target, n: Nonce, row: Capability) {
    forall j | 0 <= j < |more| :: SparedAt(Run(steps + more[..j]), more[j], t, n, row)
  }

  lemma SparedNext(steps: seq<Step>, more: seq<Step>, last: Step, t: Target, n: Nonce, row: Capability)
    ensures SparedIn(steps, more + [last], t, n, row)
      <==> SparedIn(steps, more, t, n, row) && SparedAt(Run(steps + more), last, t, n, row)
  {
    var all := more + [last];
    assert all[..|more|] == more && all[|more|] == last;
    forall j | 0 <= j < |more| ensures all[..j] == more[..j] && all[j] == more[j] {
    }
  }

  lemma ThreadsKeepLedger(s: State, step: Step)
    requires MovesThreads(step)
    ensures Do(s, step).issued == s.issued
  {
  }

  lemma OthersKeepLedger(s: State, step: Step)
    requires !step.DoPrepareIssue?
    ensures Do(s, step).issued == s.issued
  {
    if MovesThreads(step) {
      ThreadsKeepLedger(s, step);
    }
  }

  lemma IssuedStays(s: State, step: Step, n: Nonce)
    requires n in s.issued
    ensures n in Do(s, step).issued
  {
    if !step.DoPrepareIssue? {
      OthersKeepLedger(s, step);
    }
  }

  /** What became of an approved row: as it was if spared, else closed or gone. */
  ghost predicate Fate(s: State, t: Target, n: Nonce, row: Capability, spared: bool) {
    n in s.issued && if spared then n in Rows(s, t) && Rows(s, t)[n] == row else Closed(Rows(s, t), n)
  }

  lemma FateOfRows(rows: Table, call: Option<Call>, n: Nonce, row: Capability, spared: bool)
    requires row.approved && !row.consumed && if spared then n in rows && rows[n] == row else Closed(rows, n)
    requires call.Some? && call.value.IssueCall? ==> call.value.nonce != n
    ensures if spared && (call.Some? ==> Spares(call.value, n, row)) then n in Called(rows, call) && Called(rows, call)[n] == row
            else Closed(Called(rows, call), n)
  {
    if call.Some? {
      if spared {
        ApprovedStep(rows, call.value, n, row);
      } else {
        ClosedStep(rows, call.value, n);
      }
    }
  }

  lemma IssuesOthers(s: State, step: Step, t: Target, n: Nonce)
    requires n in s.issued
    ensures var call := CallAt(s, step, t); call.Some? && call.value.IssueCall? ==> call.value.nonce != n
  {
  }

  lemma FateStep(s: State, step: Step, t: Target, n: Nonce, row: Capability, spared: bool)
    requires Fate(s, t, n, row, spared) && row.approved && !row.consumed
    ensures Fate(Do(s, step), t, n, row, spared && SparedAt(s, step, t, n, row))
  {
    IssuedStays(s, step, n);
    StepIsAStoreCall(s, step, t);
    IssuesOthers(s, step, t, n);
    FateOfRows(Rows(s, t), CallAt(s, step, t), n, row, spared);
  }

  lemma FateNext(steps: seq<Step>, more: seq<Step>, last: Step, t: Target, n: Nonce, row: Capability, spared: bool)
    requires Fate(Run(steps + more), t, n, row, spared) && row.approved && !row.consumed
    ensures Fate(Run(steps + (more + [last])), t, n, row, spared && SparedAt(Run(steps + more), last, t, n, row))
  {
    RunNext(steps, more, last);
    FateStep(Run(steps + more), last, t, n, row, spared);
  }

  lemma {:induction false} ApprovedRowsFate(steps: seq<Step>, more: seq<Step>, t: Target, n: Nonce, row: Capability)
    requires Fate(Run(steps), t, n, row, true) && row.approved && !row.consumed
    ensures Fate(Run(steps + more), t, n, row, SparedIn(steps, more, t, n, row))
  {
    if more == [] {
      assert steps + more == steps;
    } else {
      var rest, last := more[..|more| - 1], more[|more| - 1];
      assert rest + [last] == more;
      ApprovedRowsFate(steps, rest, t, n, row);
      SparedNext(steps, rest, last, t, n, row);
      FateNext(steps, rest, last, t, n, row, SparedIn(steps, rest, t, n, row));
    }
  }

  /** The statement of an _accept thread takes effect: it approves an undecided row. */
  predicate Grants(s: State, v: Verdict, g: Generation) {
    && (v, g) in s.armed && v.decision.Approved? && v.nonce in Rows(s, v.target)
    && var row := Rows(s, v.target)[v.nonce];
    row.binding == v.binding.(generation := g) && !row.approved && !row.consumed && s.now < row.expiresAt
  }

  lemma RowIsIssued(s: State, t: Target, n: Nonce)
    requires Inv(s) && n in Rows(s, t)
    ensures n in s.issued
  {
    RowsKnown(s, t);
  }

  lemma GrantApproves(s: State, v: Verdict, g: Generation)
    requires Grants(s, v, g)
    ensures var s' := AcceptApply(s, v, g);
      v.nonce in Rows(s', v.target) && Rows(s', v.target)[v.nonce] == Rows(s, v.target)[v.nonce].(approved := true)
  {
    ApplyIsACall(s, v, g, v.target);
    assert Called(Rows(s, v.target), CallAt(s, DoAcceptApply(v, g), v.target))
        == Approve(Rows(s, v.target), v.nonce, v.binding.(generation := g), s.now);
  }

  /** A grant that takes effect in any run, any steps after it, and a handler that then waits for that capability under
      that binding: its next poll returns the sealed request if and only if no store call in between touched the row
      and the row has not expired. */
  lemma GrantReachesTheHandler(steps: seq<Step>, v: Verdict, g: Generation, more: seq<Step>, thread: Thread)
    requires Grants(Run(steps), v, g)
    requires WaitsFor(Run(steps + [DoAcceptApply(v, g)] + more), thread, v.target, v.nonce, v.binding.(generation := g))
    ensures var granted := steps + [DoAcceptApply(v, g)];
      var row, s := Rows(Run(steps), v.target)[v.nonce], Run(granted + more);
      var s' := ExecutePoll(s, thread);
      && (IsSealed(s', thread) <==>
            SparedIn(granted, more, v.target, v.nonce, row.(approved := true)) && s.now < row.expiresAt)
      && (IsSealed(s', thread) ==> s'.executions[thread].phase.request == row.request)
  {
    var granted := steps + [DoAcceptApply(v, g)];
    var row := Rows(Run(steps), v.target)[v.nonce].(approved := true);
    RunLast(granted, steps, DoAcceptApply(v, g));
    RunKeeps(steps);
    RowIsIssued(Run(steps), v.target, v.nonce);
    GrantApproves(Run(steps), v, g);
    ApprovedRowsFate(granted, more, v.target, v.nonce, row);
    var s := Run(granted + more);
    PollDecides(s, thread, s.executions[thread], ExecutePoll(s, thread));
  }
}
