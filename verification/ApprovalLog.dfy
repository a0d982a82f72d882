/**
 The history of one deployment: what was shown, clicked, granted, claimed and executed, oldest
 first, and what it means for a history to be justified.
 */
module ApprovalLog {
  import opened Capabilities

  /** The two execution brokers. The docker broker also runs local sandboxes. */
  datatype Target = DockerBroker | SshBroker

  datatype Decision = Approved | Denied

  /** What the approver signs. */
  datatype Verdict = Verdict(nonce: Nonce, target: Target, binding: Binding, decision: Decision)

  predicate Serves(t: Target, f: Feature) {
    t.SshBroker? <==> f.Ssh?
  }

  datatype Event =
      /** The prompt reached the private chat of `user`. */
    | Shown(nonce: Nonce, user: User, summary: string, digest: Digest)
      /** The approver stored the first click on the prompt's buttons. */
    | Recorded(verdict: Verdict, sender: User, at: Time, expiresAt: Time)
      /** The broker's approve or cancel_bound changed the row: the generation that the decision was
          checked against, the one bound into the statement, and the one in force at that moment. */
    | Granted(nonce: Nonce, target: Target, binding: Binding, at: Time, expiresAt: Time,
              checkedAgainst: Generation, bound: Generation, inForce: Generation)
    | Refused(nonce: Nonce, target: Target, binding: Binding, at: Time, expiresAt: Time,
              checkedAgainst: Generation, bound: Generation, inForce: Generation)
      /** consume returned the sealed request. */
    | Claimed(nonce: Nonce, target: Target, binding: Binding, request: Request, at: Time, expiresAt: Time,
              inForce: Generation)
      /** The operation was handed to the sandbox, to ssh or to the docker engine. */
    | Executed(nonce: Nonce, target: Target, binding: Binding, request: Request)
    | Cancelled(nonce: Nonce)

  datatype Log = Start | Then(before: Log, event: Event)

  // ---------------------------------------------------------------- what a log contains

  predicate ShownIn(log: Log, n: Nonce, user: User, summary: string, digest: Digest) {
    log.Then? && (log.event == Shown(n, user, summary, digest) || ShownIn(log.before, n, user, summary, digest))
  }

  predicate DecidedIn(log: Log, n: Nonce) {
    log.Then? && ((log.event.Recorded? && log.event.verdict.nonce == n) || DecidedIn(log.before, n))
  }

  predicate RecordedIn(log: Log, v: Verdict) {
    log.Then? && ((log.event.Recorded? && log.event.verdict == v) || RecordedIn(log.before, v))
  }

  predicate GrantedIn(log: Log, n: Nonce, t: Target, b: Binding) {
    log.Then? && ((log.event.Granted? && log.event.nonce == n && log.event.target == t && log.event.binding == b)
                  || GrantedIn(log.before, n, t, b))
  }

  /** The broker took a decision for this nonce. */
  predicate SettledIn(log: Log, n: Nonce) {
    log.Then? && (((log.event.Granted? || log.event.Refused?) && log.event.nonce == n) || SettledIn(log.before, n))
  }

  predicate ClaimedIn(log: Log, n: Nonce, t: Target, b: Binding, r: Request) {
    log.Then? && ((log.event.Claimed? && log.event.nonce == n && log.event.target == t && log.event.binding == b
                   && log.event.request == r)
                  || ClaimedIn(log.before, n, t, b, r))
  }

  /** The nonce was claimed, refused or cancelled. */
  predicate ClosedIn(log: Log, n: Nonce) {
    log.Then? && (((log.event.Claimed? || log.event.Refused? || log.event.Cancelled?) && log.event.nonce == n)
                  || ClosedIn(log.before, n))
  }

  predicate ExecutedIn(log: Log, n: Nonce) {
    log.Then? && ((log.event.Executed? && log.event.nonce == n) || ExecutedIn(log.before, n))
  }

  // ---------------------------------------------------------------- justified histories

  /** The event is allowed after this history. */
  predicate Justified(log: Log, e: Event) {
    match e
    case Shown(_, _, summary, digest) =>
      summary == RenderSummary(digest.feature, digest.request)
    case Recorded(v, sender, at, expiresAt) =>
      && at < expiresAt && sender == v.binding.user && !DecidedIn(log, v.nonce)
      && v.binding.digest.feature == v.binding.feature
      && ShownIn(log, v.nonce, sender, RenderSummary(v.binding.feature, v.binding.digest.request), v.binding.digest)
    case Granted(n, t, b, at, expiresAt, g1, g2, g3) =>
      && at < expiresAt && !SettledIn(log, n) && !ClosedIn(log, n)
      && RecordedIn(log, Verdict(n, t, b, Approved))
      && g1 == b.generation && g2 == b.generation && b.generation <= g3
    case Refused(n, t, b, at, expiresAt, g1, g2, g3) =>
      && at < expiresAt && !SettledIn(log, n) && !ClosedIn(log, n)
      && RecordedIn(log, Verdict(n, t, b, Denied))
      && g1 == b.generation && g2 == b.generation && b.generation <= g3
    case Claimed(n, t, b, r, at, expiresAt, g) =>
      && at < expiresAt && !ClosedIn(log, n) && GrantedIn(log, n, t, b)
      && b.digest == DigestOf(b.feature, r) && Serves(t, b.feature) && b.generation <= g
    case Executed(n, t, b, r) =>
      !ExecutedIn(log, n) && ClaimedIn(log, n, t, b, r)
    case Cancelled(_) => true
  }

  predicate JustifiedLog(log: Log) {
    log.Then? ==> JustifiedLog(log.before) && Justified(log.before, log.event)
  }

  // ---------------------------------------------------------------- reading a justified history

  /** `early` is `late` with some of the newest events taken off. */
  predicate IsPrefix(early: Log, late: Log) {
    early == late || (late.Then? && IsPrefix(early, late.before))
  }

  lemma {:induction false} PrefixIsJustified(early: Log, late: Log)
    requires IsPrefix(early, late) && JustifiedLog(late)
    ensures JustifiedLog(early)
  {
    if early != late {
      PrefixIsJustified(early, late.before);
    }
  }

  lemma {:induction false} FindClaim(log: Log, n: Nonce, t: Target, b: Binding, r: Request) returns (at: Log)
    requires ClaimedIn(log, n, t, b, r)
    ensures IsPrefix(at, log) && at.Then? && at.event.Claimed?
    ensures at.event.nonce == n && at.event.target == t && at.event.binding == b && at.event.request == r
  {
    if log.event.Claimed? && log.event.nonce == n && log.event.target == t && log.event.binding == b
       && log.event.request == r {
      at := log;
    } else {
      at := FindClaim(log.before, n, t, b, r);
    }
  }

  lemma {:induction false} FindGrant(log: Log, n: Nonce, t: Target, b: Binding) returns (at: Log)
    requires GrantedIn(log, n, t, b)
    ensures IsPrefix(at, log) && at.Then? && at.event.Granted?
    ensures at.event.nonce == n && at.event.target == t && at.event.binding == b
  {
    if log.event.Granted? && log.event.nonce == n && log.event.target == t && log.event.binding == b {
      at := log;
    } else {
      at := FindGrant(log.before, n, t, b);
    }
  }

  lemma {:induction false} FindRecord(log: Log, v: Verdict) returns (at: Log)
    requires RecordedIn(log, v)
    ensures IsPrefix(at, log) && at.Then? && at.event.Recorded? && at.event.verdict == v
  {
    if log.event.Recorded? && log.event.verdict == v {
      at := log;
    } else {
      at := FindRecord(log.before, v);
    }
  }

  lemma {:induction false} FindShown(log: Log, n: Nonce, user: User, summary: string, digest: Digest) returns (at: Log)
    requires ShownIn(log, n, user, summary, digest)
    ensures IsPrefix(at, log) && at.Then? && at.event == Shown(n, user, summary, digest)
  {
    if log.event == Shown(n, user, summary, digest) {
      at := log;
    } else {
      at := FindShown(log.before, n, user, summary, digest);
    }
  }

  /** The chain of custody of one executed operation: prompt, click, grant, claim, execution, each
      strictly before the next, all about one nonce and one binding. */
  ghost predicate Custody(log: Log, shown: Log, record: Log, grant: Log, claim: Log) {
    && log.Then? && log.event.Executed?
    && claim.Then? && claim.event.Claimed? && IsPrefix(claim, log.before)
    && grant.Then? && grant.event.Granted? && IsPrefix(grant, claim.before)
    && record.Then? && record.event.Recorded? && IsPrefix(record, grant.before)
    && shown.Then? && shown.event.Shown? && IsPrefix(shown, record.before)
    && var e := log.event;
    // one nonce, broker and binding (feature, digest, user, session, generation) all the way
    && claim.event.nonce == grant.event.nonce == shown.event.nonce == e.nonce
    && claim.event.target == grant.event.target == e.target
    && claim.event.binding == grant.event.binding == e.binding
    && record.event.verdict == Verdict(e.nonce, e.target, e.binding, Approved)
    // exactly the request that was shown, to the user it is bound to, who clicked
    && claim.event.request == e.request && e.binding.digest == DigestOf(e.binding.feature, e.request)
    && shown.event == Shown(e.nonce, e.binding.user, RenderSummary(e.binding.feature, e.request), e.binding.digest)
    && record.event.sender == e.binding.user
    // every step before its own expiry
    && record.event.at < record.event.expiresAt
    && grant.event.at < grant.event.expiresAt
    && claim.event.at < claim.event.expiresAt
    // the generation both reads of the grant handler returned is the bound one
    && grant.event.checkedAgainst == grant.event.bound == e.binding.generation
    // by itself on the right broker, and never decided otherwise
    && Serves(e.target, e.binding.feature)
    && !DecidedIn(record.before, e.nonce) && !SettledIn(grant.before, e.nonce)
    && !ClosedIn(claim.before, e.nonce) && !ExecutedIn(log.before, e.nonce)
  }

  lemma {:induction false} JustifiedExecutionHasCustody(log: Log)
    returns (shown: Log, record: Log, grant: Log, claim: Log)
    requires JustifiedLog(log) && log.Then? && log.event.Executed?
    ensures Custody(log, shown, record, grant, claim)
  {
    var e := log.event;
    claim := FindClaim(log.before, e.nonce, e.target, e.binding, e.request);
    PrefixIsJustified(claim, log.before);
    grant := FindGrant(claim.before, e.nonce, e.target, e.binding);
    PrefixIsJustified(grant, claim.before);
    record := FindRecord(grant.before, Verdict(e.nonce, e.target, e.binding, Approved));
    PrefixIsJustified(record, grant.before);
    shown := FindShown(record.before, e.nonce, e.binding.user,
                       RenderSummary(e.binding.feature, e.binding.digest.request), e.binding.digest);
  }

  // ---------------------------------------------------------------- at most once

  function Decisions(log: Log, n: Nonce): nat {
    if log.Start? then 0
    else Decisions(log.before, n) + if log.event.Recorded? && log.event.verdict.nonce == n then 1 else 0
  }

  function Settlements(log: Log, n: Nonce): nat {
    if log.Start? then 0
    else Settlements(log.before, n)
         + if (log.event.Granted? || log.event.Refused?) && log.event.nonce == n then 1 else 0
  }

  /** Claims and refusals together: a nonce is never both. */
  function Endings(log: Log, n: Nonce): nat {
    if log.Start? then 0
    else Endings(log.before, n)
         + if (log.event.Claimed? || log.event.Refused?) && log.event.nonce == n then 1 else 0
  }

  function Executions(log: Log, n: Nonce): nat {
    if log.Start? then 0
    else Executions(log.before, n) + if log.event.Executed? && log.event.nonce == n then 1 else 0
  }

  /** In a justified history each nonce has at most one recorded decision, one settlement at the
      broker, one ending (claimed or refused, never both) and one execution. */
  lemma {:induction false} AtMostOnce(log: Log, n: Nonce)
    requires JustifiedLog(log)
    ensures Decisions(log, n) == (if DecidedIn(log, n) then 1 else 0)
    ensures Settlements(log, n) == (if SettledIn(log, n) then 1 else 0)
    ensures Endings(log, n) <= 1 && (Endings(log, n) == 1 ==> ClosedIn(log, n))
    ensures Executions(log, n) == (if ExecutedIn(log, n) then 1 else 0)
    ensures Executions(log, n) <= Endings(log, n)
  {
    if log.Then? {
      AtMostOnce(log.before, n);
      if log.event.Executed? && log.event.nonce == n {
        ClaimIsAnEnding(log.before, n, log.event.target, log.event.binding, log.event.request);
      }
    }
  }

  lemma {:induction false} ClaimIsAnEnding(log: Log, n: Nonce, t: Target, b: Binding, r: Request)
    requires ClaimedIn(log, n, t, b, r)
    ensures Endings(log, n) >= 1
  {
    if !(log.event.Claimed? && log.event.nonce == n && log.event.target == t && log.event.binding == b
         && log.event.request == r) {
      ClaimIsAnEnding(log.before, n, t, b, r);
    }
  }

  /** Once a nonce is claimed, refused or cancelled, the rest of the history neither claims nor settles it: it was
      claimed by the end exactly when it was claimed by then. */
  lemma {:induction false} NothingAfterClosing(closed: Log, late: Log, n: Nonce)
    requires IsPrefix(closed, late) && JustifiedLog(late) && ClosedIn(closed, n)
    ensures ClosedIn(late, n)
    ensures Settlements(late, n) == Settlements(closed, n) && Endings(late, n) == Endings(closed, n)
    ensures forall t, b, r :: ClaimedIn(late, n, t, b, r) <==> ClaimedIn(closed, n, t, b, r)
    ensures forall t, b :: GrantedIn(late, n, t, b) <==> GrantedIn(closed, n, t, b)
  {
    if closed != late {
      NothingAfterClosing(closed, late.before, n);
    }
  }

  /** A refused nonce is never claimed and never executed, before or after the refusal. */
  lemma {:induction false} RefusedNeverExecutes(refused: Log, late: Log, n: Nonce)
    requires IsPrefix(refused, late) && JustifiedLog(late)
    requires refused.Then? && refused.event.Refused? && refused.event.nonce == n
    ensures !ExecutedIn(late, n)
    ensures forall t, b, r :: !ClaimedIn(late, n, t, b, r)
  {
    PrefixIsJustified(refused, late);
    if refused == late {
      forall t, b, r ensures !ClaimedIn(late.before, n, t, b, r) {
        if ClaimedIn(late.before, n, t, b, r) {
          ClaimIsAnEnding(late.before, n, t, b, r);
          AtMostOnce(late, n);
        }
      }
      AtMostOnce(late.before, n);
    } else {
      RefusedNeverExecutes(refused, late.before, n);
      NothingAfterClosing(refused, late.before, n);
    }
  }

  // ---------------------------------------------------------------- what a denial forbids

  lemma {:induction false} ExecutionWasClaimed(log: Log, n: Nonce) returns (t: Target, b: Binding, r: Request)
    requires JustifiedLog(log) && ExecutedIn(log, n)
    ensures ClaimedIn(log, n, t, b, r)
  {
    if log.event.Executed? && log.event.nonce == n {
      t, b, r := log.event.target, log.event.binding, log.event.request;
    } else {
      t, b, r := ExecutionWasClaimed(log.before, n);
    }
  }

  lemma {:induction false} ClaimWasGranted(log: Log, n: Nonce, t: Target, b: Binding, r: Request)
    requires JustifiedLog(log) && ClaimedIn(log, n, t, b, r)
    ensures GrantedIn(log, n, t, b)
  {
    if ClaimedIn(log.before, n, t, b, r) {
      ClaimWasGranted(log.before, n, t, b, r);
    }
  }

  lemma {:induction false} GrantWasRecorded(log: Log, n: Nonce, t: Target, b: Binding)
    requires JustifiedLog(log) && GrantedIn(log, n, t, b)
    ensures RecordedIn(log, Verdict(n, t, b, Approved))
  {
    if GrantedIn(log.before, n, t, b) {
      GrantWasRecorded(log.before, n, t, b);
    }
  }

  lemma {:induction false} RecordIsADecision(log: Log, v: Verdict)
    requires RecordedIn(log, v)
    ensures DecidedIn(log, v.nonce)
  {
    if RecordedIn(log.before, v) {
      RecordIsADecision(log.before, v);
    }
  }

  /** A nonce has one recorded verdict: one decision, under one binding, for one broker. */
  lemma {:induction false} RecordIsUnique(log: Log, v: Verdict, w: Verdict)
    requires JustifiedLog(log) && RecordedIn(log, v) && RecordedIn(log, w) && v.nonce == w.nonce
    ensures v == w
  {
    if RecordedIn(log.before, v) {
      RecordIsADecision(log.before, v);
    }
    if RecordedIn(log.before, w) {
      RecordIsADecision(log.before, w);
    }
    if RecordedIn(log.before, v) && RecordedIn(log.before, w) {
      RecordIsUnique(log.before, v, w);
    }
  }

  /** A recorded denial forbids grant, claim and execution by itself, also when no broker ever learns of it. */
  lemma DenialForbids(log: Log, denial: Verdict)
    requires JustifiedLog(log) && RecordedIn(log, denial) && denial.decision.Denied?
    ensures forall t, b :: !GrantedIn(log, denial.nonce, t, b)
    ensures forall t, b, r :: !ClaimedIn(log, denial.nonce, t, b, r)
    ensures !ExecutedIn(log, denial.nonce)
  {
    var n := denial.nonce;
    forall t, b ensures !GrantedIn(log, n, t, b) {
      if GrantedIn(log, n, t, b) {
        GrantWasRecorded(log, n, t, b);
        RecordIsUnique(log, denial, Verdict(n, t, b, Approved));
      }
    }
    forall t, b, r ensures !ClaimedIn(log, n, t, b, r) {
      if ClaimedIn(log, n, t, b, r) {
        ClaimWasGranted(log, n, t, b, r);
      }
    }
    if ExecutedIn(log, n) {
      var t, b, r := ExecutionWasClaimed(log, n);
    }
  }
}
