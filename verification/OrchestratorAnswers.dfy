/**
 Where every output, error and prior result of a run comes from: the agents' own answers, over any sequence of calls
 (smart-router/src/smart_router/orchestrator_v60.py:632-683).
 */
module OrchestratorAnswers {
  import opened Collections
  import opened OrchestratorRun
  import opened OrchestratorSafety
  import P = OrchestratorPlan

  /** What the agent answered to the last call of step `i`. */
  function LastAnswer(log: seq<Entry>, i: nat): Option<Answer> {
    if log == [] then None
    else if log[|log| - 1].Called? && log[|log| - 1].at == i then Some(log[|log| - 1].answer)
    else LastAnswer(log[..|log| - 1], i)
  }

  /** A text as a step's output: whole up to 200000 characters, else cut there and marked. */
  predicate StoredAs(output: string, stored: string) {
    if |output| <= 200000 then stored == output else stored == output[..200000] + "\n\U{2026} [truncated]"
  }

  /** An error as a step's error: at most its first 4000 characters. */
  predicate NotedAs(error: string, noted: string) {
    if |error| <= 4000 then noted == error else noted == error[..4000]
  }

  /** The last call of step `i` was answered, and this is what is kept of it. */
  ghost predicate AnsweredWith(log: seq<Entry>, i: nat, stored: string) {
    LastAnswer(log, i).Some? && LastAnswer(log, i).value.Answered? && StoredAs(LastAnswer(log, i).value.output, stored)
  }

  ghost predicate FailedWith(log: seq<Entry>, i: nat, noted: string) {
    LastAnswer(log, i).Some? && LastAnswer(log, i).value.NoAnswer? && NotedAs(LastAnswer(log, i).value.error, noted)
  }

  /** A done row holds its agent's last answer; a row to be tried again, or given up, the last error, and it is given up
      exactly at its last allowed attempt. */
  ghost predicate RowTold(log: seq<Entry>, row: Row, i: nat) {
    && (row.status.Done? ==> AnsweredWith(log, i, row.output) && row.error == "")
    && (!row.status.Done? ==> row.output == "")
    && (!row.status.Done? && row.attempts > 0 ==> FailedWith(log, i, row.error))
    && (row.attempts == 0 ==> row.error == "" && LastAnswer(log, i).None?)
    && (row.status.StepFailed? <==> row.attempts == Limit(row) && !row.status.Done?)
  }

  ghost predicate RowsTold(log: seq<Entry>, rows: seq<Row>) {
    forall i | 0 <= i < |rows| :: RowTold(log, rows[i], i)
  }

  /** A call was told the kept answers of exactly the steps before it, and the error of its own previous attempt. */
  ghost predicate CallTold(before: seq<Entry>, call: Entry)
    requires call.Called?
  {
    && |call.prior| == call.at && (forall j | 0 <= j < call.at :: AnsweredWith(before, j, call.prior[j]))
    && (call.attempt == 1 ==> call.lastError == "" && LastAnswer(before, call.at).None?)
    && (call.attempt > 1 ==> FailedWith(before, call.at, call.lastError))
  }

  ghost predicate CallsTold(log: seq<Entry>) {
    log == [] || (CallsTold(log[..|log| - 1]) && (log[|log| - 1].Called? ==> CallTold(log[..|log| - 1], log[|log| - 1])))
  }

  ghost predicate Told(r: Run) {
    RowsTold(r.log, r.rows) && CallsTold(r.log)
  }

  lemma AnswersNext(log: seq<Entry>, e: Entry, i: nat)
    ensures LastAnswer(log + [e], i) == if e.Called? && e.at == i then Some(e.answer) else LastAnswer(log, i)
  {
    assert (log + [e])[..|log|] == log;
  }

  lemma {:induction false} OutputsAre(rows: seq<Row>)
    ensures |Outputs(rows)| == |rows| && forall j | 0 <= j < |rows| :: Outputs(rows)[j] == rows[j].output
  {
    if rows != [] {
      OutputsAre(rows[..|rows| - 1]);
    }
  }

  // ---------------------------------------------------------------- one attempt

  lemma AfterIsTold(log: seq<Entry>, row: Row, i: nat, answer: Answer, after: seq<Entry>)
    requires row.status.Pending? && RowTold(log, row, i) && row.attempts < Limit(row) && LastAnswer(after, i) == Some(answer)
    ensures RowTold(after, After(row, answer), i)
  {
  }

  lemma CallIsTold(r: Run, k: nat, answer: Answer)
    requires k < |r.rows| && RowsTold(r.log, r.rows) && DoneOutputs(r.rows) == Outputs(r.rows[..k]) && !r.rows[k].status.Done?
    requires forall j | 0 <= j < k :: r.rows[j].status.Done?
    ensures CallTold(r.log, EntryOf(CallOf(r, k), answer))
  {
    OutputsAre(r.rows[..k]);
    assert RowTold(r.log, r.rows[k], k);
    forall j | 0 <= j < k ensures AnsweredWith(r.log, j, Outputs(r.rows[..k])[j]) {
      assert RowTold(r.log, r.rows[j], j);
    }
  }

  lemma CallLogged(log: seq<Entry>, call: Entry)
    requires CallsTold(log) && (call.Called? ==> CallTold(log, call))
    ensures CallsTold(log + [call])
  {
    assert (log + [call])[..|log|] == log;
  }

  lemma RowsAfterCall(log: seq<Entry>, rows: seq<Row>, k: nat, row: Row, call: Entry)
    requires k < |rows| && RowsTold(log, rows) && call.Called? && call.at == k && RowTold(log + [call], row, k)
    ensures RowsTold(log + [call], rows[k := row])
  {
    var rows' := rows[k := row];
    forall i | 0 <= i < |rows'| ensures RowTold(log + [call], rows'[i], i) {
      AnswersNext(log, call, i);
      assert RowTold(log, rows[i], i);
    }
  }

  lemma AttemptTells(r: Run, agents: Agents)
    requires Kept(r) && Told(r) && Lead(r.rows) < |r.rows| && r.rows[Lead(r.rows)].status.Pending?
    ensures Told(Attempt(r, Lead(r.rows), agents))
  {
    var k := Lead(r.rows);
    var answer := agents(CallOf(r, k));
    var call := EntryOf(CallOf(r, k), answer);
    PriorIs(r.rows);
    CallIsTold(r, k, answer);
    CallLogged(r.log, call);
    AnswersNext(r.log, call, k);
    assert RowTold(r.log, r.rows[k], k) && SoundRow(r.rows[k]);
    AfterIsTold(r.log, r.rows[k], k, answer, r.log + [call]);
    RowsAfterCall(r.log, r.rows, k, After(r.rows[k], answer), call);
  }

  // ---------------------------------------------------------------- every step

  /** A row that only changes its status between waiting, pending, refused and skipped keeps what it was told. */
  lemma RowStays(log: seq<Entry>, rows: seq<Row>, k: nat, row: Row)
    requires k < |rows| && RowsTold(log, rows) && rows[k].attempts == 0 && !rows[k].status.Done? && !rows[k].status.StepFailed?
    requires row.attempts == 0 && row.output == rows[k].output && row.error == "" && row.step == rows[k].step
    requires !row.status.Done? && !row.status.StepFailed?
    ensures RowsTold(log, rows[k := row])
  {
    assert RowTold(log, rows[k], k);
  }

  lemma OthersLogged(log: seq<Entry>, e: Entry, rows: seq<Row>)
    requires RowsTold(log, rows) && CallsTold(log) && !e.Called?
    ensures RowsTold(log + [e], rows) && CallsTold(log + [e])
  {
    CallLogged(log, e);
    forall i | 0 <= i < |rows| ensures RowTold(log + [e], rows[i], i) {
      AnswersNext(log, e, i);
      assert RowTold(log, rows[i], i);
    }
  }

  lemma {:induction false} LoopTells(r: Run, agents: Agents)
    requires OrchestratorSafety.Running(r) && Told(r)
    ensures Told(Loop(r, agents))
    decreases Left(r.rows)
  {
    LoopIs(r, agents);
    var k := Lead(r.rows);
    if k < |r.rows| && r.rows[k].status.Pending? {
      if r.rows[k].needsApproval && !r.rows[k].approved {
        assert SoundRow(r.rows[k]) && RowTold(r.log, r.rows[k], k);
        RowStays(r.log, r.rows, k, r.rows[k].(status := Awaiting));
      } else {
        AttemptTells(r, agents);
        AttemptKeeps(r, agents);
        if !Attempt(r, k, agents).status.Failed? {
          LoopTells(Attempt(r, k, agents), agents);
        }
      }
    }
  }

  lemma AdvanceTells(r: Run, agents: Agents, reviewer: Reviewer)
    requires Inv(r) && Told(r)
    ensures Told(Advanced(r, agents, reviewer))
  {
    if !Terminal(r.status) {
      LoopTells(r.(status := Active), agents);
      var looped := Loop(r.(status := Active), agents);
      if looped.status.Active? {
        OthersLogged(looped.log, Reviewed(reviewer(looped.rows)), looped.rows);
      }
    }
  }

  lemma ApproveTells(r: Run)
    requires Inv(r) && Told(r) && r.status.AwaitingApproval?
    ensures Told(Decision(r, true).value)
  {
    FirstIsLead(r.rows);
    var k := Lead(r.rows);
    assert SoundRow(r.rows[k]);
    RowStays(r.log, r.rows, k, r.rows[k].(status := Pending, approved := true, error := ""));
    OthersLogged(r.log, Decided(k, true), r.rows[k := r.rows[k].(status := Pending, approved := true, error := "")]);
  }

  lemma SkippedTell(log: seq<Entry>, rows: seq<Row>, rows': seq<Row>)
    requires RowsTold(log, rows) && |rows'| == |rows| && forall i | 0 <= i < |rows| :: rows'[i] == Skip(rows[i])
    requires forall i | 0 <= i < |rows| && rows[i].status.Pending? :: rows[i].attempts < Limit(rows[i])
    ensures RowsTold(log, rows')
  {
    forall i | 0 <= i < |rows| ensures RowTold(log, rows'[i], i) {
      assert RowTold(log, rows[i], i);
    }
  }

  lemma RejectTells(r: Run)
    requires Inv(r) && Told(r) && r.status.AwaitingApproval?
    ensures Told(Decision(r, false).value)
  {
    FirstIsLead(r.rows);
    var k := Lead(r.rows);
    assert SoundRow(r.rows[k]);
    assert RowTold(r.log, r.rows[k], k);
    var refused := r.rows[k := r.rows[k].(status := Refused)];
    RowStays(r.log, r.rows, k, r.rows[k].(status := Refused));
    forall i | 0 <= i < |refused| && refused[i].status.Pending? ensures refused[i].attempts < Limit(refused[i]) {
      assert refused[i] == r.rows[i] && SoundRow(r.rows[i]);
    }
    SkippedTell(r.log, refused, SkipPending(refused));
    OthersLogged(r.log, Decided(k, false), SkipPending(refused));
  }

  lemma NewRunTells(steps: seq<P.Step>, mode: P.Mode, danger: string -> bool, risk: string -> Option<string>)
    ensures Told(NewRun(steps, mode, danger, risk))
  {
  }

  lemma {:induction false} RunsTell(steps: seq<P.Step>, mode: P.Mode, danger: string -> bool, risk: string -> Option<string>,
                                    commands: seq<Command>)
    requires steps != []
    ensures Told(DoAll(NewRun(steps, mode, danger, risk), commands))
  {
    if commands == [] {
      NewRunTells(steps, mode, danger, risk);
    } else {
      var rest := commands[..|commands| - 1];
      RunsTell(steps, mode, danger, risk, rest);
      RunsAreSound(steps, mode, danger, risk, rest);
      var before := DoAll(NewRun(steps, mode, danger, risk), rest);
      match commands[|commands| - 1]
      case Advance(agents, reviewer) => AdvanceTells(before, agents, reviewer);
      case Decide(approve) =>
        DecideKeeps(before, approve);
        if before.status.AwaitingApproval? {
          if approve { ApproveTells(before); } else { RejectTells(before); }
        }
    }
  }

  // ---------------------------------------------------------------- what follows

  lemma {:induction false} ToldAt(log: seq<Entry>, p: nat)
    requires CallsTold(log) && p < |log| && log[p].Called?
    ensures CallTold(log[..p], log[p])
  {
    var last := |log| - 1;
    if p < last {
      ToldAt(log[..last], p);
      assert log[..last][..p] == log[..p];
    }
  }

  /** Over any calls: a done step's output is the answer of its last call, cut at 200000 characters; an unfinished one
      has none; a step has failed exactly when its last allowed attempt got no answer. */
  lemma OutputsAreAnswers(steps: seq<P.Step>, mode: P.Mode, danger: string -> bool, risk: string -> Option<string>,
                          commands: seq<Command>, i: nat)
    requires steps != [] && i < |steps|
    ensures var r := DoAll(NewRun(steps, mode, danger, risk), commands);
      && |r.rows| == |steps|
      && (r.rows[i].status.Done? ==> AnsweredWith(r.log, i, r.rows[i].output))
      && (!r.rows[i].status.Done? ==> r.rows[i].output == "")
      && (r.rows[i].status.StepFailed? <==>
            CallsAt(r.log, i) == (if steps[i].maxAttempts < 1 then 1 else steps[i].maxAttempts) && FailedWith(r.log, i, r.rows[i].error))
  {
    var r := DoAll(NewRun(steps, mode, danger, risk), commands);
    RunsTell(steps, mode, danger, risk, commands);
    RunsAreSound(steps, mode, danger, risk, commands);
    RunsFollowTheirPlan(steps, mode, danger, risk, commands);
    assert RowTold(r.log, r.rows[i], i);
  }

  /** Over any calls: each step call is told exactly the kept answers of all earlier steps, in order, and the error of its
      own previous attempt, or none on the first. */
  lemma CallsAreTold(steps: seq<P.Step>, mode: P.Mode, danger: string -> bool, risk: string -> Option<string>,
                     commands: seq<Command>, p: nat)
    requires steps != [] && p < |DoAll(NewRun(steps, mode, danger, risk), commands).log|
    requires DoAll(NewRun(steps, mode, danger, risk), commands).log[p].Called?
    ensures var log := DoAll(NewRun(steps, mode, danger, risk), commands).log;
      && |log[p].prior| == log[p].at && (forall j | 0 <= j < log[p].at :: AnsweredWith(log[..p], j, log[p].prior[j]))
      && (CallsAt(log[..p], log[p].at) == 0 ==> log[p].lastError == "")
      && (CallsAt(log[..p], log[p].at) > 0 ==> FailedWith(log[..p], log[p].at, log[p].lastError))
  {
    var r := DoAll(NewRun(steps, mode, danger, risk), commands);
    RunsTell(steps, mode, danger, risk, commands);
    RunsAreSound(steps, mode, danger, risk, commands);
    ToldAt(r.log, p);
    DueAt(r.log, r.rows, p);
  }
}
