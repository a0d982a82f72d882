/**
 Runs of a plan: advance and decide (smart-router/src/smart_router/orchestrator_v60.py:440-515, 600-748).

 Each holds the run's lock from start to end. The agents and the review agent are functions of what they are
 told; no two calls of a run are told the same step and attempt, so they may still answer anything.
 */
module OrchestratorRun {
  import opened Collections
  import opened Text
  import P = OrchestratorPlan

  datatype StepStatus = Pending | Awaiting | Running | Done | StepFailed | Refused | Skipped

  datatype RunStatus = Planned | Active | AwaitingApproval | Completed | Failed | Rejected

  datatype Row = Row(step: P.Step, needsApproval: bool, approved: bool, status: StepStatus, attempts: nat,
                     output: string, error: string)

  datatype Verdict = Success | Failure | Uncertain

  datatype Answer = Answered(output: string) | NoAnswer(error: string)

  /** What an agent is told. */
  datatype Call = Call(at: nat, attempt: nat, lastError: string, prior: seq<string>)

  type Agents = Call -> Answer

  /** What a run did to the world outside, in order, and what agents and reviewer answered. */
  datatype Entry =
    | Called(at: nat, attempt: nat, lastError: string, prior: seq<string>, answer: Answer)
    | Decided(at: nat, approve: bool)
    | Reviewed(verdict: Verdict)

  type Reviewer = seq<Row> -> Verdict

  datatype Run = Run(status: RunStatus, rows: seq<Row>, log: seq<Entry>)

  predicate Terminal(status: RunStatus) {
    status.Completed? || status.Failed? || status.Rejected?
  }

  /** max(1, step.max_attempts). */
  function Limit(row: Row): nat {
    if row.step.maxAttempts < 1 then 1 else row.step.maxAttempts
  }

  function Clip(s: string, n: nat): string {
    if |s| <= n then s else s[..n] + "\n\U{2026} [truncated]"
  }

  // ---------------------------------------------------------------- reading the rows

  /** The first row with this status, or the number of rows. */
  function First(rows: seq<Row>, status: StepStatus): (i: nat)
    ensures i <= |rows| && (i < |rows| ==> rows[i].status == status)
    ensures forall j | 0 <= j < i :: rows[j].status != status
  {
    if rows == [] then 0
    else if rows[0].status == status then 0
    else 1 + First(rows[1..], status)
  }

  /** The outputs of the rows that are done, in order. */
  function DoneOutputs(rows: seq<Row>): seq<string> {
    if rows == [] then []
    else DoneOutputs(rows[..|rows| - 1]) + if rows[|rows| - 1].status.Done? then [rows[|rows| - 1].output] else []
  }

  /** How often a pending row may still be called, with one to spare. */
  function Weight(row: Row): nat {
    if !row.status.Pending? then 0
    else if row.attempts < Limit(row) then 1 + Limit(row) - row.attempts else 1
  }

  function Left(rows: seq<Row>): nat {
    if rows == [] then 0 else Left(rows[..|rows| - 1]) + Weight(rows[|rows| - 1])
  }

  lemma {:induction false} LeftAfter(rows: seq<Row>, i: nat, row: Row)
    requires i < |rows|
    ensures Left(rows[i := row]) == Left(rows) - Weight(rows[i]) + Weight(row)
  {
    var last := |rows| - 1;
    if i < last {
      LeftAfter(rows[..last], i, row);
      assert rows[i := row][..last] == rows[..last][i := row];
    } else {
      assert rows[i := row][..last] == rows[..last];
    }
  }

  // ---------------------------------------------------------------- one attempt

  function CallOf(r: Run, i: nat): Call
    requires i < |r.rows|
  {
    var attempt := r.rows[i].attempts + 1;
    Call(i, attempt, if attempt > 1 then r.rows[i].error else "", DoneOutputs(r.rows))
  }

  function EntryOf(call: Call, answer: Answer): Entry {
    Called(call.at, call.attempt, call.lastError, call.prior, answer)
  }

  function After(row: Row, answer: Answer): Row {
    var tried := row.(attempts := row.attempts + 1, error := "");
    match answer
    case Answered(output) => tried.(status := Done, output := Clip(output, 200000))
    case NoAnswer(error) =>
      tried.(error := Cut(error, 4000), status := if tried.attempts < Limit(row) then Pending else StepFailed)
  }

  function Attempt(r: Run, i: nat, agents: Agents): (r': Run)
    requires i < |r.rows| && r.rows[i].status.Pending?
    ensures Left(r'.rows) < Left(r.rows)
  {
    var call := CallOf(r, i);
    var row := After(r.rows[i], agents(call));
    LeftAfter(r.rows, i, row);
    Run(if row.status.StepFailed? then Failed else r.status, r.rows[i := row], r.log + [EntryOf(call, agents(call))])
  }

  // ---------------------------------------------------------------- advance

  function Loop(r: Run, agents: Agents): Run
    decreases Left(r.rows)
  {
    if Terminal(r.status) then r
    else if First(r.rows, Awaiting) < |r.rows| then r.(status := AwaitingApproval)
    else
      var i := First(r.rows, Pending);
      if i == |r.rows| then r
      else if r.rows[i].needsApproval && !r.rows[i].approved then
        r.(status := AwaitingApproval, rows := r.rows[i := r.rows[i].(status := Awaiting)])
      else
        var r' := Attempt(r, i, agents);
        if r'.status.Failed? then r' else Loop(r', agents)
  }

  function Review(r: Run, reviewer: Reviewer): Run {
    if !r.status.Active? then r
    else
      var verdict := reviewer(r.rows);
      r.(status := if verdict.Failure? then Failed else Completed, log := r.log + [Reviewed(verdict)])
  }

  function Advanced(r: Run, agents: Agents, reviewer: Reviewer): Run {
    if Terminal(r.status) then r else Review(Loop(r.(status := Active), agents), reviewer)
  }

  // ---------------------------------------------------------------- decide

  function Skip(row: Row): Row {
    if row.status.Pending? then row.(status := Skipped) else row
  }

  function SkipPending(rows: seq<Row>): (r: seq<Row>)
    ensures |r| == |rows| && forall i | 0 <= i < |rows| :: r[i] == Skip(rows[i])
  {
    if rows == [] then [] else SkipPending(rows[..|rows| - 1]) + [Skip(rows[|rows| - 1])]
  }

  /** None stands for the 409 answer of a run that waits for nobody. */
  function Decision(r: Run, approve: bool): Option<Run> {
    var i := First(r.rows, Awaiting);
    if i == |r.rows| then None
    else if approve then
      Some(Run(Active, r.rows[i := r.rows[i].(status := Pending, approved := true, error := "")], r.log + [Decided(i, true)]))
    else
      Some(Run(Rejected, SkipPending(r.rows[i := r.rows[i].(status := Refused)]), r.log + [Decided(i, false)]))
  }

  // ---------------------------------------------------------------- create_run

  function NewRow(step: P.Step, mode: P.Mode, danger: string -> bool, risk: string -> Option<string>): Row {
    Row(step, P.MustApprove(step, mode, danger, risk), false, Pending, 0, "", "")
  }

  function NewRun(steps: seq<P.Step>, mode: P.Mode, danger: string -> bool, risk: string -> Option<string>): Run {
    Run(Planned, seq(|steps|, i requires 0 <= i < |steps| => NewRow(steps[i], mode, danger, risk)), [])
  }

  // ---------------------------------------------------------------- the rows in place

  class RunRecord {
    var status: RunStatus
    var rows: seq<Row>
    ghost var log: seq<Entry>

    ghost function Contents(): Run
      reads this
    {
      Run(status, rows, log)
    }

    constructor (steps: seq<P.Step>, mode: P.Mode, danger: string -> bool, risk: string -> Option<string>)
      ensures Contents() == NewRun(steps, mode, danger, risk)
    {
      status := Planned;
      var added: seq<Row> := [];
      for i := 0 to |steps|
        invariant |added| == i && forall j | 0 <= j < i :: added[j] == NewRow(steps[j], mode, danger, risk)
      {
        var required, reasons := P.ApprovalDecision(steps[i], mode, danger, risk);
        added := added + [Row(steps[i], required, false, Pending, 0, "", "")];
      }
      rows := added;
      log := [];
    }

    /** One pass of the loop's call: the row runs, the agent answers, the row takes the answer. */
    method CallStep(i: nat, agents: Agents)
      requires i < |rows| && rows[i].status.Pending?
      modifies this
      ensures Contents() == Attempt(old(Contents()), i, agents)
    {
      ghost var before := Contents();
      var lastError := rows[i].error;
      rows := rows[i := rows[i].(status := Running, attempts := rows[i].attempts + 1, error := "")];
      RunningIsNotDone(before.rows, i, rows[i]);
      var call := Call(i, rows[i].attempts, if rows[i].attempts > 1 then lastError else "", DoneOutputs(rows));
      var answer := agents(call);
      log := log + [EntryOf(call, answer)];
      match answer {
        case Answered(output) =>
          rows := rows[i := rows[i].(status := Done, output := Clip(output, 200000))];
        case NoAnswer(error) =>
          rows := rows[i := rows[i].(error := Cut(error, 4000))];
          if rows[i].attempts < Limit(rows[i]) {
            rows := rows[i := rows[i].(status := Pending)];
          } else {
            rows := rows[i := rows[i].(status := StepFailed)];
            status := Failed;
          }
      }
      assert rows == before.rows[i := After(before.rows[i], answer)];
    }

    method Advance(agents: Agents, reviewer: Reviewer)
      modifies this
      ensures Contents() == Advanced(old(Contents()), agents, reviewer)
    {
      if Terminal(status) {
        return;
      }
      status := Active;
      while true
        invariant Loop(Contents(), agents) == Loop(old(Contents()).(status := Active), agents)
        decreases Left(rows)
      {
        if Terminal(status) {
          break;
        }
        if First(rows, Awaiting) < |rows| {
          status := AwaitingApproval;
          break;
        }
        var i := First(rows, Pending);
        if i == |rows| {
          break;
        }
        if rows[i].needsApproval && !rows[i].approved {
          rows := rows[i := rows[i].(status := Awaiting)];
          status := AwaitingApproval;
          break;
        }
        CallStep(i, agents);
        if status.Failed? {
          break;
        }
      }
      if status.Active? {
        var verdict := reviewer(rows);
        log := log + [Reviewed(verdict)];
        status := if verdict.Failure? then Failed else Completed;
      }
    }

    /** False when no row waits for a decision; nothing changes then. */
    method Decide(approve: bool) returns (ok: bool)
      modifies this
      ensures ok <==> Decision(old(Contents()), approve).Some?
      ensures Contents() == if ok then Decision(old(Contents()), approve).value else old(Contents())
    {
      var i := First(rows, Awaiting);
      if i == |rows| {
        return false;
      }
      log := log + [Decided(i, approve)];
      if approve {
        rows := rows[i := rows[i].(status := Pending, approved := true, error := "")];
        status := Active;
      } else {
        var refused := rows[i := rows[i].(status := Refused)];
        rows := refused;
        for j := 0 to |refused|
          invariant |rows| == |refused|
          invariant forall k | 0 <= k < |refused| :: rows[k] == if k < j then Skip(refused[k]) else refused[k]
          invariant log == old(log) + [Decided(i, approve)]
        {
          if rows[j].status.Pending? {
            rows := rows[j := rows[j].(status := Skipped)];
          }
        }
        assert rows == SkipPending(refused);
        status := Rejected;
      }
      return true;
    }
  }

  lemma {:induction false} RunningIsNotDone(rows: seq<Row>, i: nat, row: Row)
    requires i < |rows| && !rows[i].status.Done? && !row.status.Done?
    ensures DoneOutputs(rows[i := row]) == DoneOutputs(rows)
  {
    var last := |rows| - 1;
    if i < last {
      RunningIsNotDone(rows[..last], i, row);
      assert rows[i := row][..last] == rows[..last][i := row];
    } else {
      assert rows[i := row][..last] == rows[..last];
    }
  }
}
