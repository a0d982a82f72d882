/**
 The broker's table of one-time capabilities (execution-broker/src/broker/store.py).

 Every SQL statement of the store runs under one lock and is one function on a table. The class
 carries the table as a field and its methods are the store's methods; `Consume` is the wait loop,
 which other threads interleave with between polls.
 */
module Capabilities {

  /** The three execution features a stack can enable. */
  datatype Feature = Local | Docker | Ssh

  /** A sealed operation. The approval summary shows only part of it (docker labels stay hidden). */
  datatype Request = Request(shown: string, hidden: string)

  /** The canonical digest: an injective function of feature and request. */
  datatype Digest = DigestOf(feature: Feature, request: Request)

  /** The text an approver reads. It is a function of the operation, and not an injective one. */
  function RenderSummary(feature: Feature, request: Request): string {
    (match feature case Local => "local " case Docker => "docker " case Ssh => "ssh ") + request.shown
  }

  // Random identifiers and times are numbers here; only their equality and order matter.
  type Nonce = nat
  type User = nat
  type Session = nat
  type Generation = nat
  type Time = int

  /** The columns that approve, cancel_bound and consume all compare. */
  datatype Binding = Binding(feature: Feature, digest: Digest, user: User, session: Session, generation: Generation)

  datatype Capability = Capability(binding: Binding, request: Request, expiresAt: Time, approved: bool, consumed: bool)

  type Table = map<Nonce, Capability>

  const CAPABILITY_TTL: Time := 300
  const PURGE_AFTER: Time := 3600

  datatype Result<T> = Ok(value: T) | CapabilityError

  // ---------------------------------------------------------------- the statements

  function PurgeExpired(rows: Table, now: Time): Table {
    map n | n in rows && rows[n].expiresAt >= now - PURGE_AFTER :: rows[n]
  }

  function Issue(rows: Table, nonce: Nonce, b: Binding, request: Request, now: Time): Table {
    PurgeExpired(rows[nonce := Capability(b, request, now + CAPABILITY_TTL, false, false)], now)
  }

  /** The WHERE clause shared by approve and cancel_bound. */
  predicate Undecided(rows: Table, nonce: Nonce, b: Binding, now: Time) {
    nonce in rows && rows[nonce].binding == b && !rows[nonce].approved && !rows[nonce].consumed
    && rows[nonce].expiresAt > now
  }

  /** The WHERE clause of consume. */
  predicate Claimable(rows: Table, nonce: Nonce, b: Binding, now: Time) {
    nonce in rows && rows[nonce].binding == b && rows[nonce].approved && !rows[nonce].consumed
    && rows[nonce].expiresAt > now
  }

  function Approve(rows: Table, nonce: Nonce, b: Binding, now: Time): Table {
    if Undecided(rows, nonce, b, now) then rows[nonce := rows[nonce].(approved := true)] else rows
  }

  function CancelBound(rows: Table, nonce: Nonce, b: Binding, now: Time): Table {
    if Undecided(rows, nonce, b, now) then rows[nonce := rows[nonce].(consumed := true)] else rows
  }

  function Claim(rows: Table, nonce: Nonce, b: Binding, now: Time): Table {
    if Claimable(rows, nonce, b, now) then rows[nonce := rows[nonce].(consumed := true)] else rows
  }

  function Cancel(rows: Table, nonce: Nonce): Table {
    if nonce in rows then rows[nonce := rows[nonce].(consumed := true)] else rows
  }

  function CancelGeneration(rows: Table, generation: Generation): Table {
    map n | n in rows ::
      if rows[n].binding.generation != generation then rows[n].(consumed := true) else rows[n]
  }

  // ---------------------------------------------------------------- calls by any thread

  /** One locked call on the store, as some thread makes it. */
  datatype Call =
    | IssueCall(nonce: Nonce, b: Binding, request: Request, now: Time)
    | ApproveCall(nonce: Nonce, b: Binding, now: Time)
    | DenyCall(nonce: Nonce, b: Binding, now: Time)
    | ClaimCall(nonce: Nonce, b: Binding, now: Time)
    | CancelCall(nonce: Nonce)
    | SupersedeCall(generation: Generation)

  function Apply(rows: Table, call: Call): Table {
    match call
    case IssueCall(n, b, r, now) => Issue(rows, n, b, r, now)
    case ApproveCall(n, b, now) => Approve(rows, n, b, now)
    case DenyCall(n, b, now) => CancelBound(rows, n, b, now)
    case ClaimCall(n, b, now) => Claim(rows, n, b, now)
    case CancelCall(n) => Cancel(rows, n)
    case SupersedeCall(g) => CancelGeneration(rows, g)
  }

  function ApplyAll(rows: Table, calls: seq<Call>): Table {
    if calls == [] then rows
    else Apply(ApplyAll(rows, calls[..|calls| - 1]), calls[|calls| - 1])
  }

  /** Whether a call changes the row it names, which is when the caller is not told "already resolved". */
  predicate Succeeds(rows: Table, call: Call) {
    match call
    case ApproveCall(n, b, now) => Undecided(rows, n, b, now)
    case DenyCall(n, b, now) => Undecided(rows, n, b, now)
    case ClaimCall(n, b, now) => Claimable(rows, n, b, now)
    case _ => true
  }

  /** The calls that end a capability's life: a claim, a denial or a cancellation. */
  predicate Closes(call: Call, nonce: Nonce) {
    (call.DenyCall? || call.ClaimCall? || call.CancelCall?) && call.nonce == nonce
  }

  /** Nonces come from `secrets`: none is ever issued twice. */
  ghost predicate NeverReissued(calls: seq<Call>, nonce: Nonce, first: nat) {
    forall k :: first <= k < |calls| && calls[k].IssueCall? ==> calls[k].nonce != nonce
  }

  /** Nothing can use the capability any more. */
  predicate Closed(rows: Table, nonce: Nonce) {
    nonce in rows ==> rows[nonce].consumed
  }

  predicate Resolved(rows: Table, nonce: Nonce) {
    nonce in rows ==> rows[nonce].consumed || rows[nonce].approved
  }

  lemma {:induction false} ClosedStaysClosed(rows: Table, calls: seq<Call>, nonce: Nonce, first: nat, last: nat)
    requires first <= last <= |calls| && NeverReissued(calls, nonce, first)
    requires Closed(ApplyAll(rows, calls[..first]), nonce)
    ensures Closed(ApplyAll(rows, calls[..last]), nonce)
    decreases last
  {
    if first < last {
      ClosedStaysClosed(rows, calls, nonce, first, last - 1);
      assert calls[..last][..last - 1] == calls[..last - 1];
    }
  }

  lemma {:induction false} ResolvedStaysResolved(rows: Table, calls: seq<Call>, nonce: Nonce, first: nat, last: nat)
    requires first <= last <= |calls| && NeverReissued(calls, nonce, first)
    requires Resolved(ApplyAll(rows, calls[..first]), nonce)
    ensures Resolved(ApplyAll(rows, calls[..last]), nonce)
    decreases last
  {
    if first < last {
      ResolvedStaysResolved(rows, calls, nonce, first, last - 1);
      assert calls[..last][..last - 1] == calls[..last - 1];
    }
  }

  /** After a claim, a denial or a cancellation, no later claim, approval or denial of that nonce
      succeeds: it is executed at most once, and never both executed and denied. */
  lemma {:induction false} ClosedOnce(rows: Table, calls: seq<Call>, i: nat, j: nat, nonce: Nonce)
    requires i < j < |calls| && NeverReissued(calls, nonce, i)
    requires Closes(calls[i], nonce) && Succeeds(ApplyAll(rows, calls[..i]), calls[i])
    requires calls[j].ClaimCall? || calls[j].ApproveCall? || calls[j].DenyCall?
    requires calls[j].nonce == nonce
    ensures !Succeeds(ApplyAll(rows, calls[..j]), calls[j])
  {
    assert calls[..i + 1][..i] == calls[..i];
    ClosedStaysClosed(rows, calls, nonce, i + 1, j);
  }

  /** A decision that took effect makes every later delivery of any decision for that nonce a no-op. */
  lemma {:induction false} RedeliveryChangesNothing(rows: Table, calls: seq<Call>, i: nat, j: nat)
    requires i < j < |calls|
    requires (calls[i].ApproveCall? || calls[i].DenyCall?) && (calls[j].ApproveCall? || calls[j].DenyCall?)
    requires calls[i].nonce == calls[j].nonce && NeverReissued(calls, calls[i].nonce, i)
    requires Succeeds(ApplyAll(rows, calls[..i]), calls[i])
    ensures ApplyAll(rows, calls[..j + 1]) == ApplyAll(rows, calls[..j])
  {
    assert calls[..i + 1][..i] == calls[..i];
    ResolvedStaysResolved(rows, calls, calls[i].nonce, i + 1, j);
    assert calls[..j + 1][..j] == calls[..j];
  }

  /** No call from `first` on finds this row long expired. */
  predicate NotPurged(calls: seq<Call>, first: nat, last: nat, issued: Time)
    requires last <= |calls|
  {
    forall k | first <= k < last && calls[k].IssueCall? :: calls[k].now <= issued + 3900
  }

  lemma IssuedStep(rows: Table, call: Call, nonce: Nonce, issue: Call)
    requires issue.IssueCall? && (call.IssueCall? ==> call.nonce != nonce)
    requires nonce in rows ==> rows[nonce].binding == issue.b && rows[nonce].request == issue.request && rows[nonce].expiresAt == issue.now + 300
    ensures var t := Apply(rows, call);
      && (nonce in t ==> t[nonce].binding == issue.b && t[nonce].request == issue.request && t[nonce].expiresAt == issue.now + 300)
      && (nonce in t <==> nonce in rows && (call.IssueCall? ==> call.now <= issue.now + 3900))
  {
  }

  /** Whatever any thread calls afterwards: an issued row keeps its binding, its request and its end five minutes on, and
      it is kept exactly until an issue an hour after that end purges it. */
  lemma {:induction false} IssuedRowStays(rows: Table, calls: seq<Call>, i: nat, j: nat)
    requires i < j <= |calls| && calls[i].IssueCall? && NeverReissued(calls, calls[i].nonce, i + 1)
    ensures var t, issue := ApplyAll(rows, calls[..j]), calls[i];
      && (issue.nonce in t <==> NotPurged(calls, i, j, issue.now))
      && (issue.nonce in t ==> t[issue.nonce].binding == issue.b && t[issue.nonce].request == issue.request
                               && t[issue.nonce].expiresAt == issue.now + 300)
    decreases j
  {
    assert calls[..j][..j - 1] == calls[..j - 1];
    if j == i + 1 {
    } else {
      IssuedRowStays(rows, calls, i, j - 1);
      IssuedStep(ApplyAll(rows, calls[..j - 1]), calls[j - 1], calls[i].nonce, calls[i]);
      assert NotPurged(calls, i, j, calls[i].now)
        <==> NotPurged(calls, i, j - 1, calls[i].now) && (calls[j - 1].IssueCall? ==> calls[j - 1].now <= calls[i].now + 3900);
    }
  }

  /** Every approval, denial or claim that takes effect does so under the binding its nonce was issued with, less than five
      minutes after that. */
  lemma {:induction false} DecidedInTime(rows: Table, calls: seq<Call>, i: nat, j: nat)
    requires i < j < |calls| && calls[i].IssueCall? && NeverReissued(calls, calls[i].nonce, i + 1)
    requires (calls[j].ApproveCall? || calls[j].DenyCall? || calls[j].ClaimCall?) && calls[j].nonce == calls[i].nonce
    requires Succeeds(ApplyAll(rows, calls[..j]), calls[j])
    ensures calls[j].b == calls[i].b && calls[j].now < calls[i].now + 300
  {
    IssuedRowStays(rows, calls, i, j);
  }

  // ---------------------------------------------------------------- the wait loop of consume

  /** One poll: the wall clock inside the lock, the monotonic clock after it, and the calls other
      threads complete before the next poll. */
  datatype Poll = Poll(now: Time, monotonic: Time, others: seq<Call>)

  /** The table as poll `k` finds it. */
  function TableAt(rows: Table, polls: seq<Poll>, k: nat): Table
    requires k <= |polls|
  {
    if k == 0 then rows else ApplyAll(TableAt(rows, polls, k - 1), polls[k - 1].others)
  }

  predicate Pending(rows: Table, nonce: Nonce, b: Binding, now: Time) {
    Undecided(rows, nonce, b, now)
  }

  /** The poll leaves the loop: it claimed the row, or it has nothing left to wait for. */
  predicate Stops(rows: Table, nonce: Nonce, b: Binding, poll: Poll, deadline: Time) {
    || Claimable(rows, nonce, b, poll.now)
    || !Pending(rows, nonce, b, poll.now)
    || deadline - poll.monotonic <= 0
  }

  /** None of the first `k` polls leaves the loop. */
  ghost predicate Waits(rows: Table, nonce: Nonce, b: Binding, polls: seq<Poll>, deadline: Time, k: nat) {
    k == 0 || (k <= |polls| && Waits(rows, nonce, b, polls, deadline, k - 1)
               && !Stops(TableAt(rows, polls, k - 1), nonce, b, polls[k - 1], deadline))
  }

  /** Poll `k` is where the loop ends. */
  ghost predicate StopsFirstAt(rows: Table, nonce: Nonce, b: Binding, polls: seq<Poll>, deadline: Time, k: nat) {
    k < |polls| && Waits(rows, nonce, b, polls, deadline, k)
    && Stops(TableAt(rows, polls, k), nonce, b, polls[k], deadline)
  }

  /** The call neither claims, closes, supersedes nor purges this approved row. */
  predicate Spares(call: Call, nonce: Nonce, row: Capability) {
    match call
    case IssueCall(_, _, _, now) => row.expiresAt >= now - PURGE_AFTER
    case ClaimCall(n, b, now) => n == nonce ==> b != row.binding || row.expiresAt <= now
    case CancelCall(n) => n != nonce
    case SupersedeCall(g) => g == row.binding.generation
    case _ => true
  }

  predicate SparedBetween(calls: seq<Call>, first: nat, last: nat, nonce: Nonce, row: Capability)
    requires last <= |calls|
  {
    forall j | first <= j < last :: Spares(calls[j], nonce, row)
  }

  lemma ApprovedStep(rows: Table, call: Call, nonce: Nonce, row: Capability)
    requires nonce in rows && rows[nonce] == row && row.approved && !row.consumed
    requires call.IssueCall? ==> call.nonce != nonce
    ensures if Spares(call, nonce, row) then nonce in Apply(rows, call) && Apply(rows, call)[nonce] == row
            else Closed(Apply(rows, call), nonce)
  {
  }

  lemma ClosedStep(rows: Table, call: Call, nonce: Nonce)
    requires Closed(rows, nonce) && (call.IssueCall? ==> call.nonce != nonce)
    ensures Closed(Apply(rows, call), nonce)
  {
  }

  lemma SparedNext(calls: seq<Call>, first: nat, last: nat, nonce: Nonce, row: Capability)
    requires first < last <= |calls|
    ensures SparedBetween(calls, first, last, nonce, row)
      <==> SparedBetween(calls, first, last - 1, nonce, row) && Spares(calls[last - 1], nonce, row)
  {
  }

  /** The table holds this row if `kept`, and otherwise nothing usable under the nonce. */
  predicate KeptOrClosed(t: Table, nonce: Nonce, row: Capability, kept: bool) {
    if kept then nonce in t && t[nonce] == row else Closed(t, nonce)
  }

  lemma KeptNext(t: Table, call: Call, nonce: Nonce, row: Capability, kept: bool)
    requires KeptOrClosed(t, nonce, row, kept) && row.approved && !row.consumed && (call.IssueCall? ==> call.nonce != nonce)
    ensures KeptOrClosed(Apply(t, call), nonce, row, kept && Spares(call, nonce, row))
  {
    if kept {
      ApprovedStep(t, call, nonce, row);
    } else {
      ClosedStep(t, call, nonce);
    }
  }

  /** An approved row stays exactly as it is while every call spares it, and is closed or gone afterwards. */
  lemma {:induction false} ApprovedStays(rows: Table, calls: seq<Call>, nonce: Nonce, row: Capability, first: nat, last: nat)
    requires first <= last <= |calls| && NeverReissued(calls, nonce, first)
    requires nonce in ApplyAll(rows, calls[..first]) && ApplyAll(rows, calls[..first])[nonce] == row
    requires row.approved && !row.consumed
    ensures KeptOrClosed(ApplyAll(rows, calls[..last]), nonce, row, SparedBetween(calls, first, last, nonce, row))
    decreases last
  {
    if first < last {
      ApprovedStays(rows, calls, nonce, row, first, last - 1);
      assert calls[..last][..last - 1] == calls[..last - 1];
      SparedNext(calls, first, last, nonce, row);
      KeptNext(ApplyAll(rows, calls[..last - 1]), calls[last - 1], nonce, row, SparedBetween(calls, first, last - 1, nonce, row));
    }
  }

  /** A row that is undecided after some calls was the same before them. */
  lemma {:induction false} UndecidedStays(rows: Table, calls: seq<Call>, nonce: Nonce, last: nat)
    requires last <= |calls| && NeverReissued(calls, nonce, 0) && nonce in rows
    requires nonce in ApplyAll(rows, calls[..last])
    requires !ApplyAll(rows, calls[..last])[nonce].approved && !ApplyAll(rows, calls[..last])[nonce].consumed
    ensures ApplyAll(rows, calls[..last])[nonce] == rows[nonce]
    decreases last
  {
    if last > 0 {
      assert calls[..last][..last - 1] == calls[..last - 1];
      UndecidedStays(rows, calls, nonce, last - 1);
    }
  }

  /** A capability still undecided at poll `k` and approved by another thread before poll `k + 1`, whatever else
      other threads call in between: that poll ends the wait, and it claims the row exactly when no call after the
      approval touched it and it has not expired. */
  lemma {:induction false} GrantWakesTheWaiter(rows: Table, nonce: Nonce, b: Binding, polls: seq<Poll>, deadline: Time,
                                               k: nat, i: nat)
    requires k + 1 < |polls| && Waits(rows, nonce, b, polls, deadline, k + 1)
    requires i < |polls[k].others| && NeverReissued(polls[k].others, nonce, 0)
    requires polls[k].others[i].ApproveCall? && polls[k].others[i].nonce == nonce
    requires Succeeds(ApplyAll(TableAt(rows, polls, k), polls[k].others[..i]), polls[k].others[i])
    ensures StopsFirstAt(rows, nonce, b, polls, deadline, k + 1)
    ensures var row := TableAt(rows, polls, k)[nonce];
      Claimable(TableAt(rows, polls, k + 1), nonce, b, polls[k + 1].now)
      <==> SparedBetween(polls[k].others, i + 1, |polls[k].others|, nonce, row) && row.expiresAt > polls[k + 1].now
  {
    var before, calls := TableAt(rows, polls, k), polls[k].others;
    var row := before[nonce];
    UndecidedStays(before, calls, nonce, i);
    var approved := row.(approved := true);
    assert calls[..i + 1][..i] == calls[..i];
    ApprovedStays(before, calls, nonce, approved, i + 1, |calls|);
    assert calls[..|calls|] == calls;
    assert SparedBetween(calls, i + 1, |calls|, nonce, approved) <==> SparedBetween(calls, i + 1, |calls|, nonce, row) by {
      assert forall j | i < j < |calls| :: Spares(calls[j], nonce, approved) <==> Spares(calls[j], nonce, row);
    }
  }

  /** What one `consume` leaves behind when its loop ends at poll `k`. */
  ghost predicate Consumed(before: Table, after: Table, nonce: Nonce, b: Binding, polls: seq<Poll>, deadline: Time,
                           r: Result<Request>, k: nat) {
    && StopsFirstAt(before, nonce, b, polls, deadline, k)
    && var t := TableAt(before, polls, k);
    && after == Claim(t, nonce, b, polls[k].now)
    && r == if Claimable(t, nonce, b, polls[k].now) then Ok(t[nonce].request) else CapabilityError
  }

  function Deadline(start: Time, wait: Time): Time {
    start + if wait > 0 then wait else 0
  }

  // ---------------------------------------------------------------- the store object

  class CapabilityStore {
    var rows: Table

    constructor ()
      ensures rows == map[]
    {
      rows := map[];
    }

    method IssueCapability(nonce: Nonce, b: Binding, request: Request, now: Time)
      modifies this
      ensures rows == Issue(old(rows), nonce, b, request, now)
      ensures Undecided(rows, nonce, b, now)
    {
      rows := rows[nonce := Capability(b, request, now + CAPABILITY_TTL, false, false)];
      rows := PurgeExpired(rows, now);
    }

    method ApproveCapability(nonce: Nonce, b: Binding, now: Time) returns (r: Result<()>)
      modifies this
      ensures rows == Approve(old(rows), nonce, b, now)
      ensures r.Ok? <==> Undecided(old(rows), nonce, b, now)
      ensures r.Ok? ==> Claimable(rows, nonce, b, now)
    {
      if nonce in rows && rows[nonce].binding == b && !rows[nonce].approved && !rows[nonce].consumed
         && rows[nonce].expiresAt > now {
        rows := rows[nonce := rows[nonce].(approved := true)];
        r := Ok(());
      } else {
        r := CapabilityError;
      }
    }

    method DenyCapability(nonce: Nonce, b: Binding, now: Time) returns (r: Result<()>)
      modifies this
      ensures rows == CancelBound(old(rows), nonce, b, now)
      ensures r.Ok? <==> Undecided(old(rows), nonce, b, now)
      ensures r.Ok? ==> Closed(rows, nonce)
    {
      if nonce in rows && rows[nonce].binding == b && !rows[nonce].approved && !rows[nonce].consumed
         && rows[nonce].expiresAt > now {
        rows := rows[nonce := rows[nonce].(consumed := true)];
        r := Ok(());
      } else {
        r := CapabilityError;
      }
    }

    method CancelCapability(nonce: Nonce)
      modifies this
      ensures rows == Cancel(old(rows), nonce) && Closed(rows, nonce)
    {
      if nonce in rows {
        rows := rows[nonce := rows[nonce].(consumed := true)];
      }
    }

    /** Run at start-up: the capabilities of every other generation are closed, the rest stay as they are. */
    method CancelSuperseded(generation: Generation)
      modifies this
      ensures rows == CancelGeneration(old(rows), generation) && rows.Keys == old(rows).Keys
      ensures forall n | n in rows && rows[n].binding.generation != generation :: Closed(rows, n)
      ensures forall n | n in rows && rows[n].binding.generation == generation :: rows[n] == old(rows)[n]
    {
      rows := map n | n in rows ::
        if rows[n].binding.generation != generation then rows[n].(consumed := true) else rows[n];
    }

    /** `polls` is what the loop meets: clock readings and other threads' calls. The monotonic clock
        reaches the deadline by the last of them, which is all the loop needs to end. */
    method Consume(nonce: Nonce, b: Binding, start: Time, wait: Time, polls: seq<Poll>) returns (r: Result<Request>)
      requires |polls| > 0
      requires polls[|polls| - 1].monotonic >= Deadline(start, wait)
      modifies this
      ensures exists k: nat :: Consumed(old(rows), rows, nonce, b, polls, Deadline(start, wait), r, k)
    {
      var deadline := Deadline(start, wait);
      ghost var before := rows;
      var k: nat := 0;
      while true
        invariant k < |polls|
        invariant rows == TableAt(before, polls, k)
        invariant Waits(before, nonce, b, polls, deadline, k)
        decreases |polls| - k
      {
        var now := polls[k].now;
        if Claimable(rows, nonce, b, now) {
          r := Ok(rows[nonce].request);
          rows := rows[nonce := rows[nonce].(consumed := true)];
          assert Consumed(before, rows, nonce, b, polls, deadline, r, k);
          return;
        }
        var pending := Pending(rows, nonce, b, now);
        var remaining := deadline - polls[k].monotonic;
        if !pending || remaining <= 0 {
          r := CapabilityError;
          assert Consumed(before, rows, nonce, b, polls, deadline, r, k);
          return;
        }
        rows := ApplyAll(rows, polls[k].others);
        k := k + 1;
      }
    }
  }
}
