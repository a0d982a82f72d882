/**
 What every run keeps, whatever the agents, the review agent and the people deciding do.
 */
module OrchestratorSafety {
  import opened Collections
  import opened OrchestratorRun
  import P = OrchestratorPlan

  // ---------------------------------------------------------------- the shape of the rows

  /** The number of leading rows that are done. */
  function Lead(rows: seq<Row>): (k: nat)
    ensures k <= |rows| && (k < |rows| ==> !rows[k].status.Done?)
    ensures forall j | 0 <= j < k :: rows[j].status.Done?
  {
    if rows == [] || !rows[0].status.Done? then 0 else 1 + Lead(rows[1..])
  }

  lemma LeadIs(rows: seq<Row>, k: nat)
    requires k <= |rows| && (k < |rows| ==> !rows[k].status.Done?) && forall j | 0 <= j < k :: rows[j].status.Done?
    ensures Lead(rows) == k
  {
  }

  predicate Untouched(row: Row) {
    row.attempts == 0 && !row.approved
  }

  /** Done rows, then at most one other row, then rows nobody has touched: all pending, or all skipped. */
  ghost predicate Shape(rows: seq<Row>) {
    var k := Lead(rows);
    k < |rows| ==>
      && (rows[k].status.Pending? || rows[k].status.Awaiting? || rows[k].status.StepFailed? || rows[k].status.Refused?)
      && forall j | k < j < |rows| :: Untouched(rows[j]) && rows[j].status == if rows[k].status.Refused? then Skipped else Pending
  }

  /** One row's counters and approval. */
  ghost predicate SoundRow(row: Row) {
    && row.attempts <= Limit(row)
    && (row.status.Pending? || row.status.Awaiting? ==> row.attempts < Limit(row))
    && (row.attempts > 0 && row.needsApproval ==> row.approved)
    && (row.status.Awaiting? || row.status.Refused? ==> row.needsApproval && Untouched(row))
    && (row.status.Done? ==> row.attempts > 0)
  }

  ghost predicate SoundRows(rows: seq<Row>) {
    forall row | row in rows :: SoundRow(row)
  }

  // ---------------------------------------------------------------- the log

  function Calls(log: seq<Entry>): nat {
    if log == [] then 0 else Calls(log[..|log| - 1]) + if log[|log| - 1].Called? then 1 else 0
  }

  function CallsAt(log: seq<Entry>, at: nat): nat {
    if log == [] then 0
    else CallsAt(log[..|log| - 1], at) + if log[|log| - 1].Called? && log[|log| - 1].at == at then 1 else 0
  }

  function Reviews(log: seq<Entry>): nat {
    if log == [] then 0 else Reviews(log[..|log| - 1]) + if log[|log| - 1].Reviewed? then 1 else 0
  }

  function SumAttempts(rows: seq<Row>): nat {
    if rows == [] then 0 else SumAttempts(rows[..|rows| - 1]) + rows[|rows| - 1].attempts
  }

  function Outputs(rows: seq<Row>): seq<string> {
    if rows == [] then [] else Outputs(rows[..|rows| - 1]) + [rows[|rows| - 1].output]
  }

  /** No call so far was for a later row. */
  ghost predicate NoneBeyond(log: seq<Entry>, at: nat) {
    forall e | e in log && e.Called? :: e.at <= at
  }

  /** Each call was the next attempt of the first unfinished row, told the outputs of exactly the rows before
      it, after the approval it needs and before any review; each decision was made once, before any call. */
  ghost predicate Due(entry: Entry, before: seq<Entry>, rows: seq<Row>) {
    match entry
    case Called(at, attempt, lastError, prior, _) =>
      && at < |rows| && at <= Lead(rows) && prior == Outputs(rows[..at])
      && attempt == CallsAt(before, at) + 1 <= rows[at].attempts
      && (rows[at].needsApproval ==> Decided(at, true) in before)
      && Reviews(before) == 0 && NoneBeyond(before, at)
    case Decided(at, approve) =>
      && at < |rows| && at <= Lead(rows) && rows[at].needsApproval && CallsAt(before, at) == 0
      && Decided(at, true) !in before && Decided(at, false) !in before
      && (if approve then rows[at].approved else rows[at].status.Refused?)
    case Reviewed(_) => Lead(rows) == |rows| && Reviews(before) == 0
  }

  ghost predicate AllDue(log: seq<Entry>, rows: seq<Row>) {
    log == [] || (AllDue(log[..|log| - 1], rows) && Due(log[|log| - 1], log[..|log| - 1], rows))
  }

  ghost predicate Counted(log: seq<Entry>, rows: seq<Row>) {
    && Calls(log) == SumAttempts(rows)
    && (forall i | 0 <= i < |rows| :: CallsAt(log, i) == rows[i].attempts)
    && (forall i | 0 <= i < |rows| :: rows[i].approved <==> Decided(i, true) in log)
  }

  // ---------------------------------------------------------------- the invariant

  /** The run's status says what the first unfinished row says. */
  ghost predicate Agrees(r: Run) {
    var k := Lead(r.rows);
    if k < |r.rows| then
      && Reviews(r.log) == 0
      && match r.rows[k].status
         case Pending => r.status.Planned? || r.status.Active?
         case Awaiting => r.status.AwaitingApproval?
         case StepFailed => r.status.Failed?
         case other => r.status.Rejected?
    else
      && r.log != [] && r.log[|r.log| - 1].Reviewed? && Reviews(r.log) == 1
      && r.status == if r.log[|r.log| - 1].verdict.Failure? then Failed else Completed
  }

  ghost predicate Kept(r: Run) {
    Shape(r.rows) && SoundRows(r.rows) && AllDue(r.log, r.rows) && Counted(r.log, r.rows)
  }

  ghost predicate Inv(r: Run) {
    Kept(r) && Agrees(r)
  }

  /** Inside the loop the run is active and its first unfinished row, if any, is waiting or pending. */
  ghost predicate Running(r: Run) {
    && Kept(r) && r.status.Active? && Reviews(r.log) == 0
    && (Lead(r.rows) < |r.rows| ==> r.rows[Lead(r.rows)].status.Pending? || r.rows[Lead(r.rows)].status.Awaiting?)
  }

  // ---------------------------------------------------------------- one row changes

  /** The rows change only from the first unfinished one on, and keep what was promised. */
  ghost predicate Evolves(rows: seq<Row>, rows': seq<Row>) {
    && |rows'| == |rows| && Lead(rows) <= Lead(rows')
    && (forall j | 0 <= j < Lead(rows) :: rows'[j] == rows[j])
    && (forall j | 0 <= j < |rows| :: rows[j].attempts <= rows'[j].attempts && rows'[j].needsApproval == rows[j].needsApproval
          && (rows[j].approved ==> rows'[j].approved) && (rows[j].status.Refused? ==> rows'[j].status.Refused?))
  }

  lemma {:induction false} StillDue(log: seq<Entry>, rows: seq<Row>, rows': seq<Row>)
    requires AllDue(log, rows) && Evolves(rows, rows')
    ensures AllDue(log, rows')
  {
    if log != [] {
      StillDue(log[..|log| - 1], rows, rows');
      OneStillDue(log[|log| - 1], log[..|log| - 1], rows, rows');
    }
  }

  lemma OneStillDue(entry: Entry, before: seq<Entry>, rows: seq<Row>, rows': seq<Row>)
    requires Due(entry, before, rows) && Evolves(rows, rows')
    ensures Due(entry, before, rows')
  {
    if entry.Called? {
      assert rows'[..entry.at] == rows[..entry.at];
    }
  }

  lemma {:induction false} SumAfter(rows: seq<Row>, i: nat, row: Row)
    requires i < |rows|
    ensures SumAttempts(rows[i := row]) == SumAttempts(rows) - rows[i].attempts + row.attempts
  {
    var last := |rows| - 1;
    if i < last {
      SumAfter(rows[..last], i, row);
      assert rows[i := row][..last] == rows[..last][i := row];
    } else {
      assert rows[i := row][..last] == rows[..last];
    }
  }

  lemma {:induction false} DoneOutputsAre(rows: seq<Row>, k: nat)
    requires k <= |rows| && (forall j | 0 <= j < k :: rows[j].status.Done?) && forall j | k <= j < |rows| :: !rows[j].status.Done?
    ensures DoneOutputs(rows) == Outputs(rows[..k])
  {
    if rows != [] {
      var last := |rows| - 1;
      if k == |rows| {
        DoneOutputsAre(rows[..last], last);
        assert rows[..k] == rows && rows[..last][..last] == rows[..last];
      } else {
        DoneOutputsAre(rows[..last], k);
        assert rows[..last][..k] == rows[..k];
      }
    }
  }

  lemma {:induction false} CalledAreWithin(log: seq<Entry>, rows: seq<Row>)
    requires AllDue(log, rows)
    ensures NoneBeyond(log, Lead(rows))
  {
    if log != [] {
      CalledAreWithin(log[..|log| - 1], rows);
      assert log == log[..|log| - 1] + [log[|log| - 1]];
    }
  }

  lemma {:induction false} RefusalsShow(log: seq<Entry>, rows: seq<Row>, i: nat)
    requires AllDue(log, rows) && Decided(i, false) in log
    ensures i < |rows| && rows[i].status.Refused?
  {
    assert log == log[..|log| - 1] + [log[|log| - 1]];
    if log[|log| - 1] != Decided(i, false) {
      RefusalsShow(log[..|log| - 1], rows, i);
    }
  }

  /** The log grows by an entry that is due. */
  lemma Logged(log: seq<Entry>, entry: Entry, rows: seq<Row>)
    requires AllDue(log, rows) && Due(entry, log, rows)
    ensures AllDue(log + [entry], rows)
    ensures Calls(log + [entry]) == Calls(log) + if entry.Called? then 1 else 0
    ensures Reviews(log + [entry]) == Reviews(log) + if entry.Reviewed? then 1 else 0
  {
    assert (log + [entry])[..|log|] == log;
  }

  lemma LoggedAt(log: seq<Entry>, entry: Entry, at: nat)
    ensures CallsAt(log + [entry], at) == CallsAt(log, at) + if entry.Called? && entry.at == at then 1 else 0
  {
    assert (log + [entry])[..|log|] == log;
  }

  // ---------------------------------------------------------------- every step keeps the invariant

  /** The row at the front, changed, in an otherwise unchanged shape. */
  lemma FrontChanges(rows: seq<Row>, row: Row)
    requires Shape(rows) && Lead(rows) < |rows| && !rows[Lead(rows)].status.Refused? && !row.status.Refused?
    requires row.status.Pending? || row.status.Awaiting? || row.status.StepFailed? || row.status.Done?
    requires rows[Lead(rows)].attempts <= row.attempts && rows[Lead(rows)].needsApproval == row.needsApproval
    requires rows[Lead(rows)].approved ==> row.approved
    ensures var rows' := rows[Lead(rows) := row];
      && Shape(rows') && Evolves(rows, rows') && Lead(rows') == Lead(rows) + if row.status.Done? then 1 else 0
  {
    var k := Lead(rows);
    LeadIs(rows[k := row], if row.status.Done? then k + 1 else k);
  }

  lemma FrontSound(rows: seq<Row>, row: Row, k: nat)
    requires SoundRows(rows) && SoundRow(row) && k < |rows|
    ensures SoundRows(rows[k := row])
  {
  }

  /** Counters and approvals stay in step when one row and one entry are added together. */
  lemma CountedAfter(log: seq<Entry>, rows: seq<Row>, entry: Entry, row: Row, k: nat)
    requires Counted(log, rows) && k < |rows|
    requires match entry
             case Called(at, _, _, _, _) => at == k && row.attempts == rows[k].attempts + 1 && row.approved == rows[k].approved
             case Decided(at, approve) => at == k && row.attempts == rows[k].attempts && row.approved == (approve || rows[k].approved)
             case Reviewed(_) => false
    ensures Counted(log + [entry], rows[k := row])
  {
    SumAfter(rows, k, row);
    assert (log + [entry])[..|log|] == log;
    forall i | 0 <= i < |rows| ensures CallsAt(log + [entry], i) == rows[k := row][i].attempts {
      LoggedAt(log, entry, i);
    }
  }

  lemma AfterIsSound(row: Row, answer: Answer)
    requires SoundRow(row) && row.status.Pending? && (row.needsApproval ==> row.approved)
    ensures var row' := After(row, answer);
      && SoundRow(row') && row'.attempts == row.attempts + 1 && row'.approved == row.approved
      && row'.needsApproval == row.needsApproval && (row'.status.Pending? || row'.status.StepFailed? || row'.status.Done?)
  {
  }

  lemma PriorIs(rows: seq<Row>)
    requires Shape(rows)
    ensures DoneOutputs(rows) == Outputs(rows[..Lead(rows)])
  {
    DoneOutputsAre(rows, Lead(rows));
  }

  /** The call that row `k` is about to get is due. */
  lemma CallIsDue(r: Run, k: nat, rows': seq<Row>, answer: Answer)
    requires k < |r.rows| <= |rows'| && k <= Lead(rows') && Reviews(r.log) == 0 && NoneBeyond(r.log, k)
    requires CallsAt(r.log, k) == r.rows[k].attempts && rows'[k].attempts == r.rows[k].attempts + 1
    requires rows'[k].needsApproval ==> Decided(k, true) in r.log
    requires DoneOutputs(r.rows) == Outputs(rows'[..k])
    ensures Due(EntryOf(CallOf(r, k), answer), r.log, rows')
  {
  }

  /** The rows after an attempt of the first unfinished row. */
  lemma AttemptRows(rows: seq<Row>, answer: Answer)
    requires Shape(rows) && SoundRows(rows) && Lead(rows) < |rows| && rows[Lead(rows)].status.Pending?
    requires rows[Lead(rows)].needsApproval ==> rows[Lead(rows)].approved
    ensures var k := Lead(rows);
      var rows' := rows[k := After(rows[k], answer)];
      && Shape(rows') && SoundRows(rows') && Evolves(rows, rows')
      && Lead(rows') == k + if rows'[k].status.Done? then 1 else 0
  {
    var k := Lead(rows);
    assert SoundRow(rows[k]);
    AfterIsSound(rows[k], answer);
    FrontChanges(rows, After(rows[k], answer));
    FrontSound(rows, After(rows[k], answer), k);
  }

  lemma AttemptKept(r: Run, agents: Agents)
    requires Kept(r) && Reviews(r.log) == 0 && Lead(r.rows) < |r.rows| && r.rows[Lead(r.rows)].status.Pending?
    requires r.rows[Lead(r.rows)].needsApproval ==> r.rows[Lead(r.rows)].approved
    ensures var r' := Attempt(r, Lead(r.rows), agents);
      && Kept(r') && Reviews(r'.log) == 0
      && Lead(r'.rows) == Lead(r.rows) + if r'.rows[Lead(r.rows)].status.Done? then 1 else 0
  {
    var k := Lead(r.rows);
    var answer := agents(CallOf(r, k));
    var call := EntryOf(CallOf(r, k), answer);
    var row := After(r.rows[k], answer);
    var rows' := r.rows[k := row];
    AttemptRows(r.rows, answer);
    PriorIs(r.rows);
    CalledAreWithin(r.log, r.rows);
    assert rows'[..k] == r.rows[..k];
    CallIsDue(r, k, rows', answer);
    StillDue(r.log, r.rows, rows');
    Logged(r.log, call, rows');
    CountedAfter(r.log, r.rows, call, row, k);
  }

  lemma AttemptKeeps(r: Run, agents: Agents)
    requires Running(r) && Lead(r.rows) < |r.rows| && r.rows[Lead(r.rows)].status.Pending?
    requires r.rows[Lead(r.rows)].needsApproval ==> r.rows[Lead(r.rows)].approved
    ensures var r' := Attempt(r, Lead(r.rows), agents); if r'.status.Failed? then Inv(r') else Running(r')
  {
    AttemptKept(r, agents);
  }

  lemma FirstIsLead(rows: seq<Row>)
    requires Shape(rows)
    ensures var k := Lead(rows);
      && First(rows, Awaiting) == (if k < |rows| && rows[k].status.Awaiting? then k else |rows|)
      && (k < |rows| && rows[k].status.Pending? ==> First(rows, Pending) == k)
      && (k == |rows| ==> First(rows, Pending) == |rows|)
  {
  }

  lemma AwaitCounts(log: seq<Entry>, rows: seq<Row>, k: nat)
    requires Counted(log, rows) && k < |rows|
    ensures Counted(log, rows[k := rows[k].(status := Awaiting)])
  {
    SumAfter(rows, k, rows[k].(status := Awaiting));
  }

  lemma AwaitKeeps(r: Run)
    requires Running(r) && Lead(r.rows) < |r.rows| && r.rows[Lead(r.rows)].status.Pending?
    requires r.rows[Lead(r.rows)].needsApproval && !r.rows[Lead(r.rows)].approved
    ensures var k := Lead(r.rows);
      Inv(r.(status := AwaitingApproval, rows := r.rows[k := r.rows[k].(status := Awaiting)]))
  {
    var k := Lead(r.rows);
    var row := r.rows[k].(status := Awaiting);
    assert SoundRow(r.rows[k]);
    FrontChanges(r.rows, row);
    FrontSound(r.rows, row, k);
    StillDue(r.log, r.rows, r.rows[k := row]);
    AwaitCounts(r.log, r.rows, k);
  }

  /** One pass of the loop, read off the first unfinished row. */
  lemma LoopIs(r: Run, agents: Agents)
    requires Shape(r.rows) && r.status.Active?
    requires Lead(r.rows) < |r.rows| ==> r.rows[Lead(r.rows)].status.Pending? || r.rows[Lead(r.rows)].status.Awaiting?
    ensures var k := Lead(r.rows);
      Loop(r, agents) ==
        if k == |r.rows| then r
        else if r.rows[k].status.Awaiting? then r.(status := AwaitingApproval)
        else if r.rows[k].needsApproval && !r.rows[k].approved then
          r.(status := AwaitingApproval, rows := r.rows[k := r.rows[k].(status := Awaiting)])
        else if Attempt(r, k, agents).status.Failed? then Attempt(r, k, agents)
        else Loop(Attempt(r, k, agents), agents)
  {
    FirstIsLead(r.rows);
  }

  /** The loop of advance ends waiting, failed, or with every row done. */
  lemma {:induction false} LoopKeeps(r: Run, agents: Agents)
    requires Running(r)
    ensures var r' := Loop(r, agents);
      (Inv(r') && (r'.status.AwaitingApproval? || r'.status.Failed?)) || (Running(r') && Lead(r'.rows) == |r'.rows|)
    decreases Left(r.rows)
  {
    LoopIs(r, agents);
    var k := Lead(r.rows);
    if k < |r.rows| && r.rows[k].status.Pending? {
      if r.rows[k].needsApproval && !r.rows[k].approved {
        AwaitKeeps(r);
      } else {
        AttemptKeeps(r, agents);
        if !Attempt(r, k, agents).status.Failed? {
          LoopKeeps(Attempt(r, k, agents), agents);
        }
      }
    }
  }

  lemma ReviewKeeps(r: Run, reviewer: Reviewer)
    requires Running(r) && Lead(r.rows) == |r.rows|
    ensures Inv(Review(r, reviewer)) && Terminal(Review(r, reviewer).status)
  {
    var entry := Reviewed(reviewer(r.rows));
    Logged(r.log, entry, r.rows);
    forall i ensures CallsAt(r.log + [entry], i) == CallsAt(r.log, i) {
      LoggedAt(r.log, entry, i);
    }
  }

  /** advance keeps the invariant, and never leaves a run active: it waits for a person or has ended. */
  lemma AdvanceKeeps(r: Run, agents: Agents, reviewer: Reviewer)
    requires Inv(r)
    ensures var r' := Advanced(r, agents, reviewer);
      Inv(r') && (r'.status.AwaitingApproval? || Terminal(r'.status))
  {
    if !Terminal(r.status) {
      var active := r.(status := Active);
      LoopKeeps(active, agents);
      var looped := Loop(active, agents);
      if looped.status.Active? {
        ReviewKeeps(looped, reviewer);
      }
    }
  }

  lemma ApproveKeeps(r: Run)
    requires Inv(r) && Lead(r.rows) < |r.rows| && r.rows[Lead(r.rows)].status.Awaiting?
    ensures Inv(Decision(r, true).value)
  {
    FirstIsLead(r.rows);
    var k := Lead(r.rows);
    var row := r.rows[k].(status := Pending, approved := true, error := "");
    var entry := Decided(k, true);
    assert SoundRow(r.rows[k]);
    FrontChanges(r.rows, row);
    FrontSound(r.rows, row, k);
    StillDue(r.log, r.rows, r.rows[k := row]);
    if Decided(k, false) in r.log { RefusalsShow(r.log, r.rows, k); }
    Logged(r.log, entry, r.rows[k := row]);
    CountedAfter(r.log, r.rows, entry, row, k);
  }

  lemma {:induction false} SameSum(rows: seq<Row>, rows': seq<Row>)
    requires |rows| == |rows'| && forall i | 0 <= i < |rows| :: rows[i].attempts == rows'[i].attempts
    ensures SumAttempts(rows) == SumAttempts(rows')
  {
    if rows != [] {
      SameSum(rows[..|rows| - 1], rows'[..|rows| - 1]);
    }
  }

  /** The waiting row is refused and every later one skipped. */
  ghost predicate Rejects(rows: seq<Row>, rows': seq<Row>, k: nat)
    requires k < |rows|
  {
    && |rows'| == |rows| && (forall j | 0 <= j < k :: rows'[j] == rows[j]) && rows'[k] == rows[k].(status := Refused)
    && forall j | k < j < |rows| :: rows'[j] == rows[j].(status := Skipped) && Untouched(rows[j])
  }

  lemma RejectedRows(rows: seq<Row>, rows': seq<Row>)
    requires Shape(rows) && Lead(rows) < |rows| && rows[Lead(rows)].status.Awaiting?
    requires rows' == SkipPending(rows[Lead(rows) := rows[Lead(rows)].(status := Refused)])
    ensures Rejects(rows, rows', Lead(rows))
  {
  }

  lemma RejectedCounters(rows: seq<Row>, rows': seq<Row>, k: nat)
    requires k < |rows| && Rejects(rows, rows', k)
    ensures SumAttempts(rows) == SumAttempts(rows')
    ensures forall i | 0 <= i < |rows| :: rows[i].approved == rows'[i].approved && rows[i].attempts == rows'[i].attempts
  {
    SameSum(rows, rows');
  }

  lemma RejectedShape(rows: seq<Row>, rows': seq<Row>)
    requires Shape(rows) && Lead(rows) < |rows| && rows[Lead(rows)].status.Awaiting? && Rejects(rows, rows', Lead(rows))
    ensures Shape(rows') && Evolves(rows, rows') && Lead(rows') == Lead(rows) && rows'[Lead(rows)].status.Refused?
  {
    LeadIs(rows', Lead(rows));
  }

  lemma SkippedSound(rows: seq<Row>, rows': seq<Row>)
    requires SoundRows(rows) && |rows'| == |rows| && forall i | 0 <= i < |rows| :: rows'[i] == Skip(rows[i])
    ensures SoundRows(rows')
  {
    forall row | row in rows' ensures SoundRow(row) {
      var i :| 0 <= i < |rows| && rows'[i] == row;
      assert SoundRow(rows[i]);
    }
  }

  lemma CountedStays(log: seq<Entry>, rows: seq<Row>, rows': seq<Row>, at: nat)
    requires Counted(log, rows) && |rows'| == |rows| && SumAttempts(rows) == SumAttempts(rows')
    requires forall i | 0 <= i < |rows| :: rows[i].approved == rows'[i].approved && rows[i].attempts == rows'[i].attempts
    ensures Counted(log + [Decided(at, false)], rows')
  {
    assert (log + [Decided(at, false)])[..|log|] == log;
    forall i | 0 <= i < |rows| ensures CallsAt(log + [Decided(at, false)], i) == rows'[i].attempts {
      LoggedAt(log, Decided(at, false), i);
    }
  }

  lemma RefusalIsDue(r: Run, rows': seq<Row>)
    requires Kept(r) && Lead(r.rows) < |r.rows| && r.rows[Lead(r.rows)].status.Awaiting?
    requires Evolves(r.rows, rows') && Lead(rows') == Lead(r.rows) && rows'[Lead(r.rows)].status.Refused?
    ensures Due(Decided(Lead(r.rows), false), r.log, rows')
  {
    var k := Lead(r.rows);
    assert SoundRow(r.rows[k]);
    if Decided(k, false) in r.log { RefusalsShow(r.log, r.rows, k); }
  }

  lemma RejectKeeps(r: Run)
    requires Inv(r) && Lead(r.rows) < |r.rows| && r.rows[Lead(r.rows)].status.Awaiting?
    ensures Inv(Decision(r, false).value)
  {
    FirstIsLead(r.rows);
    var k := Lead(r.rows);
    var refused := r.rows[k].(status := Refused);
    var rows' := SkipPending(r.rows[k := refused]);
    assert SoundRow(r.rows[k]);
    RejectedRows(r.rows, rows');
    RejectedShape(r.rows, rows');
    RejectedCounters(r.rows, rows', k);
    FrontSound(r.rows, refused, k);
    SkippedSound(r.rows[k := refused], rows');
    StillDue(r.log, r.rows, rows');
    RefusalIsDue(r, rows');
    Logged(r.log, Decided(k, false), rows');
    CountedStays(r.log, r.rows, rows', k);
  }

  /** decide is refused unless the run waits for a person, and keeps the invariant. */
  lemma DecideKeeps(r: Run, approve: bool)
    requires Inv(r)
    ensures Decision(r, approve).Some? <==> r.status.AwaitingApproval?
    ensures Decision(r, approve).Some? ==> Inv(Decision(r, approve).value)
  {
    FirstIsLead(r.rows);
    if Decision(r, approve).Some? {
      if approve { ApproveKeeps(r); } else { RejectKeeps(r); }
    }
  }

  // ---------------------------------------------------------------- whole runs

  datatype Command = Advance(agents: Agents, reviewer: Reviewer) | Decide(approve: bool)

  function Do(r: Run, c: Command): Run {
    match c
    case Advance(agents, reviewer) => Advanced(r, agents, reviewer)
    case Decide(approve) => if Decision(r, approve).Some? then Decision(r, approve).value else r
  }

  function DoAll(r: Run, commands: seq<Command>): Run {
    if commands == [] then r else Do(DoAll(r, commands[..|commands| - 1]), commands[|commands| - 1])
  }

  /** A plan as normalize_plan leaves it. */
  predicate PlanBounds(steps: seq<P.Step>) {
    1 <= |steps| <= P.MAX_STEPS_LIMIT && P.Ascending(steps) && P.Within(steps, P.MAX_STEPS_LIMIT)
  }

  lemma AcceptedPlansAreBounded(raws: seq<P.RawStep>, given: P.Given, resolve: string -> Option<P.Agent>, steps: seq<P.Step>)
    requires P.PlanOf(raws, P.BoundedSteps(given), resolve, P.Steps(steps))
    ensures PlanBounds(steps)
  {
    var limit := P.BoundedSteps(given);
    assert 1 <= limit <= 20;
    forall s | s in steps ensures 1 <= s.idx <= 20 && 1 <= s.maxAttempts <= 3 {
      assert s.idx <= limit;
    }
  }

  lemma {:induction false} NothingYet(rows: seq<Row>)
    requires forall row | row in rows :: row.attempts == 0
    ensures SumAttempts(rows) == 0
  {
    if rows != [] {
      NothingYet(rows[..|rows| - 1]);
    }
  }

  lemma NewRunIsSound(steps: seq<P.Step>, mode: P.Mode, danger: string -> bool, risk: string -> Option<string>)
    requires steps != []
    ensures Inv(NewRun(steps, mode, danger, risk))
  {
    var r := NewRun(steps, mode, danger, risk);
    LeadIs(r.rows, 0);
    NothingYet(r.rows);
    assert r.rows[0].status.Pending?;
  }

  /** Whatever is called in whatever order, whenever the lock is free: finished rows, at most one current row,
      then untouched rows; a log in which every call was due; and a status that says the same. */
  lemma {:induction false} RunsAreSound(steps: seq<P.Step>, mode: P.Mode, danger: string -> bool, risk: string -> Option<string>,
                                        commands: seq<Command>)
    requires steps != []
    ensures Inv(DoAll(NewRun(steps, mode, danger, risk), commands))
  {
    var r := NewRun(steps, mode, danger, risk);
    if commands == [] {
      NewRunIsSound(steps, mode, danger, risk);
    } else {
      RunsAreSound(steps, mode, danger, risk, commands[..|commands| - 1]);
      var before := DoAll(r, commands[..|commands| - 1]);
      match commands[|commands| - 1]
      case Advance(agents, reviewer) => AdvanceKeeps(before, agents, reviewer);
      case Decide(approve) => DecideKeeps(before, approve);
    }
  }

  // ---------------------------------------------------------------- what follows

  /** The rows still belong to the plan's steps. */
  ghost predicate Follows(r: Run, steps: seq<P.Step>, mode: P.Mode, danger: string -> bool, risk: string -> Option<string>) {
    |r.rows| == |steps| && forall i | 0 <= i < |steps| ::
      r.rows[i].step == steps[i] && r.rows[i].needsApproval == P.MustApprove(steps[i], mode, danger, risk)
  }

  lemma {:induction false} LoopFollows(r: Run, agents: Agents, steps: seq<P.Step>, mode: P.Mode, danger: string -> bool,
                                       risk: string -> Option<string>)
    requires Follows(r, steps, mode, danger, risk)
    ensures Follows(Loop(r, agents), steps, mode, danger, risk)
    decreases Left(r.rows)
  {
    var i := First(r.rows, Pending);
    if !Terminal(r.status) && First(r.rows, Awaiting) == |r.rows| && i < |r.rows| && (r.rows[i].needsApproval ==> r.rows[i].approved) {
      var r' := Attempt(r, i, agents);
      if !r'.status.Failed? {
        LoopFollows(r', agents, steps, mode, danger, risk);
      }
    }
  }

  lemma DecisionFollows(r: Run, approve: bool, steps: seq<P.Step>, mode: P.Mode, danger: string -> bool, risk: string -> Option<string>)
    requires Follows(r, steps, mode, danger, risk) && Decision(r, approve).Some?
    ensures Follows(Decision(r, approve).value, steps, mode, danger, risk)
  {
  }

  lemma AdvanceFollows(r: Run, agents: Agents, reviewer: Reviewer, steps: seq<P.Step>, mode: P.Mode, danger: string -> bool,
                       risk: string -> Option<string>)
    requires Follows(r, steps, mode, danger, risk)
    ensures Follows(Advanced(r, agents, reviewer), steps, mode, danger, risk)
  {
    LoopFollows(r.(status := Active), agents, steps, mode, danger, risk);
  }

  lemma {:induction false} RunsFollowTheirPlan(steps: seq<P.Step>, mode: P.Mode, danger: string -> bool, risk: string -> Option<string>,
                                               commands: seq<Command>)
    ensures Follows(DoAll(NewRun(steps, mode, danger, risk), commands), steps, mode, danger, risk)
  {
    if commands != [] {
      RunsFollowTheirPlan(steps, mode, danger, risk, commands[..|commands| - 1]);
      var before := DoAll(NewRun(steps, mode, danger, risk), commands[..|commands| - 1]);
      match commands[|commands| - 1]
      case Advance(agents, reviewer) => AdvanceFollows(before, agents, reviewer, steps, mode, danger, risk);
      case Decide(approve) =>
        if Decision(before, approve).Some? {
          DecisionFollows(before, approve, steps, mode, danger, risk);
        }
    }
  }

  lemma {:induction false} DueAt(log: seq<Entry>, rows: seq<Row>, p: nat)
    requires AllDue(log, rows) && p < |log|
    ensures Due(log[p], log[..p], rows)
  {
    var last := |log| - 1;
    if p < last {
      DueAt(log[..last], rows, p);
      assert log[..last][..p] == log[..p];
    }
  }

  /** No step that needs approval is ever called before a person has approved that very step, and each call is
      told the results of exactly the steps before it. */
  lemma ApprovalComesFirst(steps: seq<P.Step>, mode: P.Mode, danger: string -> bool, risk: string -> Option<string>,
                           commands: seq<Command>, p: nat)
    requires steps != [] && p < |DoAll(NewRun(steps, mode, danger, risk), commands).log|
    requires DoAll(NewRun(steps, mode, danger, risk), commands).log[p].Called?
    ensures var r := DoAll(NewRun(steps, mode, danger, risk), commands);
      var call := r.log[p];
      && call.at < |steps| && (P.MustApprove(steps[call.at], mode, danger, risk) ==> Decided(call.at, true) in r.log[..p])
      && call.at <= Lead(r.rows) && call.prior == Outputs(r.rows[..call.at])
      && NoneBeyond(r.log[..p], call.at)
  {
    RunsAreSound(steps, mode, danger, risk, commands);
    RunsFollowTheirPlan(steps, mode, danger, risk, commands);
    DueAt(DoAll(NewRun(steps, mode, danger, risk), commands).log, DoAll(NewRun(steps, mode, danger, risk), commands).rows, p);
  }

  lemma {:induction false} BoundedSum(rows: seq<Row>, each: nat)
    requires forall row | row in rows :: row.attempts <= each
    ensures SumAttempts(rows) <= each * |rows|
  {
    if rows != [] {
      BoundedSum(rows[..|rows| - 1], each);
      assert rows[|rows| - 1] in rows;
    }
  }

  /** Over any sequence of calls a planned run makes at most sixty step calls and one review. */
  lemma AtMostSixtyCalls(steps: seq<P.Step>, mode: P.Mode, danger: string -> bool, risk: string -> Option<string>,
                         commands: seq<Command>)
    requires PlanBounds(steps)
    ensures var r := DoAll(NewRun(steps, mode, danger, risk), commands);
      Calls(r.log) <= 60 && Reviews(r.log) <= 1 && forall i | 0 <= i < |steps| :: CallsAt(r.log, i) <= steps[i].maxAttempts
  {
    var r := DoAll(NewRun(steps, mode, danger, risk), commands);
    RunsAreSound(steps, mode, danger, risk, commands);
    RunsFollowTheirPlan(steps, mode, danger, risk, commands);
    forall i | 0 <= i < |steps| ensures r.rows[i].attempts <= steps[i].maxAttempts <= 3 {
      assert steps[i] in steps && SoundRow(r.rows[i]);
    }
    BoundedSum(r.rows, 3);
  }

  /** A terminal run never changes again. */
  lemma {:induction false} TerminalIsFinal(r: Run, commands: seq<Command>)
    requires Inv(r) && Terminal(r.status)
    ensures DoAll(r, commands) == r
  {
    if commands != [] {
      TerminalIsFinal(r, commands[..|commands| - 1]);
      if commands[|commands| - 1].Decide? {
        DecideKeeps(r, commands[|commands| - 1].approve);
      }
    }
  }

  /** Completed means every step is done and the review did not call it a failure; a rejected run stopped at the
      step that was refused; no terminal run waits for anybody. */
  lemma WhatTerminalMeans(r: Run)
    requires Inv(r)
    ensures r.status.Completed? <==>
      Lead(r.rows) == |r.rows| && r.log != [] && r.log[|r.log| - 1].Reviewed? && !r.log[|r.log| - 1].verdict.Failure?
    ensures r.status.Rejected? <==> exists row :: row in r.rows && row.status.Refused?
    ensures Terminal(r.status) ==> forall row | row in r.rows :: !row.status.Awaiting?
  {
    var k := Lead(r.rows);
    if k < |r.rows| {
      assert r.rows[k] in r.rows;
    }
  }
}
