/**
 The approver's own table as the object that holds it (execution-broker/src/broker/approver.py). Each
 method is one SQL statement; `Resolve` looks the row up by its callback token, which is unique.
 The contracts tie the table to the protocol step the statement carries out.
 */
module ApproverStore {
  import opened Collections
  import opened Capabilities
  import opened ApprovalLog
  import opened Protocol

  ghost predicate TokensUnique(rows: map<Nonce, Approval>) {
    forall m, n | m in rows && n in rows && rows[m].token == rows[n].token :: m == n
  }

  /** The WHERE clause of resolve. */
  predicate Resolvable(rows: map<Nonce, Approval>, n: Nonce, token: Token, user: User, now: Time) {
    && n in rows && rows[n].token == token && rows[n].binding.user == user
    && rows[n].decision.None? && rows[n].delivered && rows[n].expiresAt > now
  }

  /** A protocol state that has this table, this clock and this approver. */
  ghost predicate Sees(s: State, rows: map<Nonce, Approval>, now: Time, user: User) {
    s.approvals == rows && s.now == now && user in s.approvers
  }

  const LIMIT: nat := 100

  /** The WHERE clause of unresolved_decisions. */
  predicate IsDue(rows: map<Nonce, Approval>, n: Nonce, now: Time) {
    n in rows && rows[n].decision.Some? && !rows[n].granted && rows[n].expiresAt > now
  }

  function VerdictOf(rows: map<Nonce, Approval>, n: Nonce): Verdict
    requires n in rows && rows[n].decision.Some?
  {
    Verdict(n, rows[n].target, rows[n].binding, rows[n].decision.value)
  }

  /** These rows are the ones that the protocol's polling loop sends again, and this is what it sends. */
  lemma DueIsResent(s: State, n: Nonce)
    ensures IsDue(s.approvals, n, s.now) ==> Resend(s, n) == s.(verdicts := s.verdicts + {VerdictOf(s.approvals, n)})
    ensures !IsDue(s.approvals, n, s.now) ==> Resend(s, n) == s
  {
  }

  /** `vs` lists the due rows outside `rest`, by expiry, none of which expires after one in `rest`. */
  ghost predicate Listed(rows: map<Nonce, Approval>, now: Time, vs: seq<Verdict>, rest: set<Nonce>) {
    && (forall n | n in rest :: IsDue(rows, n, now))
    && (forall v | v in vs :: IsDue(rows, v.nonce, now) && v == VerdictOf(rows, v.nonce) && v.nonce !in rest)
    && (forall n | IsDue(rows, n, now) :: n in rest || VerdictOf(rows, n) in vs)
    && (forall i, j | 0 <= i < j < |vs| :: vs[i].nonce != vs[j].nonce)
    && (forall i, j | 0 <= i < j < |vs| && vs[i].nonce in rows && vs[j].nonce in rows ::
          rows[vs[i].nonce].expiresAt <= rows[vs[j].nonce].expiresAt)
    && (forall v, n | v in vs && v.nonce in rows && n in rest && n in rows :: rows[v.nonce].expiresAt <= rows[n].expiresAt)
  }

  lemma {:induction false} EarliestExists(rows: map<Nonce, Approval>, rest: set<Nonce>)
    requires rest != {} && forall n | n in rest :: n in rows
    ensures exists n :: n in rest && forall m | m in rest :: rows[n].expiresAt <= rows[m].expiresAt
  {
    var x := Element(rest);
    var others := rest - {x};
    if others == {} {
      assert rest == {x};
    } else {
      EarliestExists(rows, others);
      var y :| y in others && forall m | m in others :: rows[y].expiresAt <= rows[m].expiresAt;
      var n := if rows[x].expiresAt <= rows[y].expiresAt then x else y;
      forall m | m in rest ensures rows[n].expiresAt <= rows[m].expiresAt {
        assert m == x || m in others;
      }
    }
  }

  lemma ListedNext(rows: map<Nonce, Approval>, now: Time, vs: seq<Verdict>, rest: set<Nonce>, n: Nonce)
    requires Listed(rows, now, vs, rest) && n in rest && forall m | m in rest && m in rows && n in rows ::
      rows[n].expiresAt <= rows[m].expiresAt
    ensures Listed(rows, now, vs + [VerdictOf(rows, n)], rest - {n})
  {
    var more := vs + [VerdictOf(rows, n)];
    forall m | IsDue(rows, m, now) ensures m in rest - {n} || VerdictOf(rows, m) in more {
      assert m == n || m in rest - {n} || VerdictOf(rows, m) in vs;
      assert more[|vs|] == VerdictOf(rows, n);
    }
    forall i, j | 0 <= i < j < |more|
      ensures more[i].nonce != more[j].nonce && rows[more[i].nonce].expiresAt <= rows[more[j].nonce].expiresAt
    {
      assert more[i] in vs;
    }
  }

  class ApprovalRequestStore {
    var rows: map<Nonce, Approval>

    ghost predicate Valid()
      reads this
    {
      TokensUnique(rows)
    }

    constructor ()
      ensures Valid() && rows == map[]
    {
      rows := map[];
    }

    /** The token is drawn fresh; a repeated capability breaks the primary key. */
    method Create(sub: Submission, token: Token, now: Time) returns (ok: bool)
      requires Valid() && forall n | n in rows :: rows[n].token != token
      modifies this
      ensures Valid()
      ensures ok <==> sub.nonce !in old(rows)
      ensures !ok ==> rows == old(rows)
      ensures ok ==> rows.Keys == old(rows).Keys + {sub.nonce} && forall n | n in old(rows) :: rows[n] == old(rows)[n]
      ensures ok ==> forall user :: !Resolvable(rows, sub.nonce, token, user, now)
      ensures ok ==>
        rows[sub.nonce] == Approval(token, sub.target, sub.binding, sub.summary, now + APPROVAL_TTL, None, false, false)
      ensures forall s: State, user | Sees(s, old(rows), now, user) && user == sub.binding.user
                                      && sub in s.submissions && ValidSubmission(s, sub, true)
                :: ApproverCreate(s, sub, token, true).approvals == rows
    {
      if sub.nonce in rows {
        return false;
      }
      rows := rows[sub.nonce := Approval(token, sub.target, sub.binding, sub.summary, now + APPROVAL_TTL, None, false, false)];
      ok := true;
    }

    /** The prompt was sent: from now on, and not before, its buttons work. */
    method MarkDelivered(n: Nonce)
      requires Valid()
      modifies this
      ensures Valid()
      ensures rows == if n in old(rows) then old(rows)[n := old(rows)[n].(delivered := true)] else old(rows)
      ensures forall s: State | s.approvals == old(rows) && n in old(rows) && n in s.sending && s.sending[n]
                :: PromptReturns(s, n, true).approvals == rows
      ensures n in old(rows) && old(rows)[n].decision.None? ==>
        forall now | now < old(rows)[n].expiresAt :: Resolvable(rows, n, old(rows)[n].token, old(rows)[n].binding.user, now)
    {
      if n in rows {
        rows := rows[n := rows[n].(delivered := true)];
      }
    }

    /** Sending failed: an undecided request is withdrawn. */
    method Discard(n: Nonce)
      requires Valid()
      modifies this
      ensures Valid()
      ensures rows == if n in old(rows) && old(rows)[n].decision.None? then old(rows) - {n} else old(rows)
      ensures forall s: State | s.approvals == old(rows) && n in old(rows) && n in s.sending
                :: PromptReturns(s, n, false).approvals == rows
      ensures forall token, user, now :: !Resolvable(rows, n, token, user, now)
    {
      if n in rows && rows[n].decision.None? {
        rows := rows - {n};
      }
    }

    /** The verdict is signed for exactly the row that was still open; a second click finds none. */
    method Resolve(token: Token, decision: Decision, user: User, now: Time) returns (grant: Option<Verdict>)
      requires Valid()
      modifies this
      ensures Valid()
      ensures grant.None? <==> forall n :: !Resolvable(old(rows), n, token, user, now)
      ensures grant.None? ==> rows == old(rows)
      ensures grant.Some? ==>
        var v := grant.value;
        && Resolvable(old(rows), v.nonce, token, user, now)
        && v.decision == decision && v.binding == old(rows)[v.nonce].binding && v.target == old(rows)[v.nonce].target
        && (forall n, u :: !Resolvable(rows, n, token, u, now))
        && (forall s: State | Sees(s, old(rows), now, user) ::
              var s' := Click(s, v.nonce, token, user, decision);
              s'.approvals == rows && v in s'.verdicts)
    {
      var open := set n | n in rows && Resolvable(rows, n, token, user, now);
      if open == {} {
        assert forall n :: Resolvable(rows, n, token, user, now) ==> n in open;
        return None;
      }
      var n :| n in open;
      grant := Some(Verdict(n, rows[n].target, rows[n].binding, decision));
      rows := rows[n := rows[n].(decision := Some(decision))];
    }

    /** The rows the polling loop sends again: the earliest to expire, at most a hundred of them. */
    method UnresolvedDecisions(now: Time) returns (vs: seq<Verdict>)
      ensures |vs| <= 100 && forall i, j | 0 <= i < j < |vs| :: vs[i].nonce != vs[j].nonce
      ensures forall v | v in vs :: IsDue(rows, v.nonce, now) && v == VerdictOf(rows, v.nonce)
      ensures forall i, j | 0 <= i < j < |vs| && vs[i].nonce in rows && vs[j].nonce in rows ::
        rows[vs[i].nonce].expiresAt <= rows[vs[j].nonce].expiresAt
      ensures forall n | IsDue(rows, n, now) && VerdictOf(rows, n) !in vs ::
        |vs| == 100 && forall v | v in vs && v.nonce in rows :: rows[v.nonce].expiresAt <= rows[n].expiresAt
      ensures forall s: State, v | s.approvals == rows && s.now == now && v in vs :: v in Resend(s, v.nonce).verdicts
    {
      vs := [];
      var rest := set n | n in rows && IsDue(rows, n, now);
      while rest != {} && |vs| < LIMIT
        invariant |vs| <= LIMIT && Listed(rows, now, vs, rest)
        decreases rest
      {
        EarliestExists(rows, rest);
        var n :| n in rest && forall m | m in rest :: rows[n].expiresAt <= rows[m].expiresAt;
        ListedNext(rows, now, vs, rest, n);
        vs := vs + [VerdictOf(rows, n)];
        rest := rest - {n};
      }
      forall s: State, v | s.approvals == rows && s.now == now && v in vs ensures v in Resend(s, v.nonce).verdicts {
        DueIsResent(s, v.nonce);
      }
    }

    method MarkGranted(n: Nonce, d: Decision)
      requires Valid()
      modifies this
      ensures Valid()
      ensures rows == if n in old(rows) && old(rows)[n].decision == Some(d) then old(rows)[n := old(rows)[n].(granted := true)]
                      else old(rows)
      ensures forall s: State | s.approvals == old(rows) && (n, d) in s.acks :: Protocol.MarkGranted(s, n, d).approvals == rows
    {
      if n in rows && rows[n].decision == Some(d) {
        rows := rows[n := rows[n].(granted := true)];
      }
    }
  }
}
