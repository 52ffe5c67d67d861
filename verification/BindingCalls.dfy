/** `PostgresHumanAuthorityBootstrapRepository`: the table, changed in place by each transaction. */
module BindingCalls {
  import opened Base
  import opened Binding

  datatype Reservation = Created(intent: Intent) | Reused(intent: Intent) | Taken(intent: Intent)

  class IntentRepository {
    var rows: Rows

    ghost predicate Valid()
      reads this
    {
      TableSound(rows)
    }

    constructor ()
      ensures Valid() && rows == map[]
    {
      rows := map[];
    }

    /** `expireIntent`: an active intent that ran out fails and loses its claim. */
    method ExpireIntent(ref: string, now: int)
      requires ref in rows
      modifies this
      ensures rows == old(rows)[ref := Expired(old(rows)[ref], now)]
    {
      var row := rows[ref];
      if !Active(row.state) || row.expiresAt > now {
        assert rows == rows[ref := row];
        return;
      }
      rows := rows[ref := row.(state := Failed, failure := Some("INTENT_EXPIRED"), claimRef := None,
        claimUntil := None)];
    }

    /** The expiry loop of a reservation. */
    method ExpireTarget(target: string, now: int)
      modifies this
      ensures rows == ExpiredRows(old(rows), target, now)
    {
      var todo := set r | r in rows && rows[r].target == target && Active(rows[r].state) && rows[r].expiresAt <= now;
      while todo != {}
        invariant rows.Keys == old(rows).Keys && todo <= rows.Keys
        invariant forall r :: r in todo ==> rows[r] == old(rows)[r] && rows[r].target == target
        invariant forall r :: r in rows && r !in todo ==>
          rows[r] == if old(rows)[r].target == target then Expired(old(rows)[r], now) else old(rows)[r]
        decreases |todo|
      {
        var r :| r in todo;
        ExpireIntent(r, now);
        todo := todo - {r};
      }
      assert rows == ExpiredRows(old(rows), target, now);
    }

    /** `reserveIntent`.  None: the reference was taken, and the whole transaction failed. */
    method ReserveIntent(ref: string, c: Candidate, now: int) returns (r: Option<Reservation>)
      requires Valid()
      modifies this
      ensures Valid() && rows == After(old(rows), Reserve(ref, c), now)
      ensures Granted(old(rows), Reserve(ref, c), now) <==> r.Some? && r.value.Created?
      ensures match r
        case Some(Created(intent)) => ref in rows && rows[ref] == intent == NewIntent(c)
        case Some(Reused(intent)) => HeldBy(rows, intent, c) && intent.subject == c.subject
        case Some(Taken(intent)) => HeldBy(rows, intent, c) && intent.subject != c.subject
        case None => ref in rows && rows == old(rows)
    {
      ghost var start := rows;
      StepKeeps(rows, Reserve(ref, c), now);
      var before := rows;
      ExpireTarget(c.target, now);
      var active := set k | k in rows && rows[k].target == c.target && Active(rows[k].state);
      if active != {} {
        var k :| k in active;
        assert HasActive(rows, c.target) && HeldBy(rows, rows[k], c);
        r := Some(if rows[k].subject == c.subject then Reused(rows[k]) else Taken(rows[k]));
        return;
      }
      assert forall k :: k in rows && rows[k].target == c.target && Active(rows[k].state) ==> k in active;
      if ref in rows {
        rows := before;
        return None;
      }
      rows := rows[ref := NewIntent(c)];
      r := Some(Created(rows[ref]));
    }

    /** `claimIntent`. */
    method ClaimIntent(ref: string, claim: string, principal: string, until: int, now: int) returns (r: Option<Intent>)
      requires Valid()
      modifies this
      ensures Valid() && rows == After(old(rows), Claim(ref, claim, principal, until), now)
      ensures r.Some? <==> Granted(old(rows), Claim(ref, claim, principal, until), now)
      ensures r.Some? ==>
        ref in rows && r.value == rows[ref] && r.value.claimRef == Some(claim) && r.value.claimUntil == Some(until)
    {
      StepKeeps(rows, Claim(ref, claim, principal, until), now);
      if ref !in rows {
        return None;
      }
      var current := rows[ref];
      if current.expiresAt <= now {
        ExpireIntent(ref, now);
        return None;
      }
      if !Reclaimable(current, now) {
        return None;
      }
      var next := if current.state.Pending? then Applying else current.state;
      rows := rows[ref := current.(state := next, claimRef := Some(claim), claimUntil := Some(until),
        principal := Some(principal))];
      r := Some(rows[ref]);
    }

    /** `markProviderApplied`. */
    method MarkProviderApplied(ref: string, claim: string, digest: string, now: int) returns (done: bool)
      requires Valid()
      modifies this
      ensures Valid() && rows == After(old(rows), MarkApplied(ref, claim, digest), now)
      ensures done <==> Granted(old(rows), MarkApplied(ref, claim, digest), now)
    {
      StepKeeps(rows, MarkApplied(ref, claim, digest), now);
      if ref !in rows || !Holds(rows[ref], claim, now) || !rows[ref].state.Applying? {
        return false;
      }
      rows := rows[ref := rows[ref].(state := ProviderApplied, mutationDigest := Some(digest))];
      done := true;
    }

    /** `markReconciliationRequired`. */
    method MarkReconciliationRequired(ref: string, claim: string, digest: string, reason: string, now: int)
      returns (done: bool)
      requires Valid()
      modifies this
      ensures Valid() && rows == After(old(rows), MarkReconciliation(ref, claim, digest, reason), now)
      ensures done <==> Granted(old(rows), MarkReconciliation(ref, claim, digest, reason), now)
    {
      StepKeeps(rows, MarkReconciliation(ref, claim, digest, reason), now);
      if ref !in rows || !Holds(rows[ref], claim, now) || !Working(rows[ref].state) {
        return false;
      }
      rows := rows[ref := rows[ref].(state := ReconciliationRequired, reconciliationDigest := Some(digest),
                                     failure := Some(reason), claimRef := None, claimUntil := None)];
      done := true;
    }

    /** `markVerifying`. */
    method MarkVerifyingStarted(ref: string, claim: string, now: int) returns (done: bool)
      requires Valid()
      modifies this
      ensures Valid() && rows == After(old(rows), MarkVerifying(ref, claim), now)
      ensures done <==> Granted(old(rows), MarkVerifying(ref, claim), now)
    {
      StepKeeps(rows, MarkVerifying(ref, claim), now);
      if ref !in rows || !Holds(rows[ref], claim, now) || !rows[ref].state.ProviderApplied? {
        return false;
      }
      rows := rows[ref := rows[ref].(state := Verifying)];
      done := true;
    }

    /** `markRuntimeVerified`. */
    method MarkRuntimeVerified(ref: string, claim: string, digest: string, now: int) returns (done: bool)
      requires Valid()
      modifies this
      ensures Valid() && rows == After(old(rows), MarkVerified(ref, claim, digest), now)
      ensures done <==> Granted(old(rows), MarkVerified(ref, claim, digest), now)
    {
      StepKeeps(rows, MarkVerified(ref, claim, digest), now);
      if ref !in rows || !Holds(rows[ref], claim, now) || !rows[ref].state.Verifying? {
        return false;
      }
      rows := rows[ref := rows[ref].(state := RuntimeVerified, evidenceDigest := Some(digest))];
      done := true;
    }

    /** The transaction of a call, and whether it had its effect. */
    method Perform(call: Call, now: int) returns (done: bool)
      requires Valid()
      modifies this
      ensures Valid() && rows == After(old(rows), call, now)
      ensures done <==> Granted(old(rows), call, now)
    {
      match call {
        case Reserve(ref, c) =>
          var reserved := ReserveIntent(ref, c, now);
          done := reserved.Some? && reserved.value.Created?;
        case Claim(ref, claim, principal, until) =>
          var claimed := ClaimIntent(ref, claim, principal, until, now);
          done := claimed.Some?;
        case MarkApplied(ref, claim, digest) => done := MarkProviderApplied(ref, claim, digest, now);
        case MarkReconciliation(ref, claim, digest, reason) =>
          done := MarkReconciliationRequired(ref, claim, digest, reason, now);
        case MarkVerifying(ref, claim) => done := MarkVerifyingStarted(ref, claim, now);
        case MarkVerified(ref, claim, digest) => done := MarkRuntimeVerified(ref, claim, digest, now);
        case Finalize(ref, claim, outcome, receipt) => done := FinalizeIntent(ref, claim, outcome, receipt, now);
      }
    }

    /** `finalizeIntent`. */
    method FinalizeIntent(ref: string, claim: string, outcome: State, receipt: string, now: int) returns (done: bool)
      requires Valid()
      modifies this
      ensures Valid() && rows == After(old(rows), Finalize(ref, claim, outcome, receipt), now)
      ensures done <==> Granted(old(rows), Finalize(ref, claim, outcome, receipt), now)
    {
      StepKeeps(rows, Finalize(ref, claim, outcome, receipt), now);
      if !outcome.Conflict? && !outcome.Failed? {
        return false;
      }
      if ref !in rows || !Holds(rows[ref], claim, now) || !Working(rows[ref].state) {
        return false;
      }
      rows := rows[ref := rows[ref].(state := outcome, receiptDigest := Some(receipt), claimRef := None,
        claimUntil := None)];
      done := true;
    }
  }

  /** What one run of the control plane reports. */
  datatype Report = ReportVerified | ReportConflict | ReportReconciliation

  class ControlPlaneRun {
    const issuer: IntentRepository
    /** The reference and claim this run works with. */
    const ref: string
    const claim: string
    /** What other callers do before each of this run's posts, and the times its posts carry. */
    const others: seq<seq<Step>>
    const times: seq<int>
    /** The number of requests this process lives to make. */
    var lives: nat
    var posts: nat

    constructor (issuer: IntentRepository, ref: string, claim: string, others: seq<seq<Step>>, times: seq<int>,
      lives: nat)
      requires |others| == |times| >= 4
      ensures this.issuer == issuer && this.ref == ref && this.claim == claim && this.others == others
        && this.times == times
      ensures this.lives == lives && posts == 0
    {
      this.issuer, this.ref, this.claim, this.others, this.times := issuer, ref, claim, others, times;
      this.lives := lives;
      posts := 0;
    }

    /** Other callers' transactions. */
    method Interfere(steps: seq<Step>)
      requires issuer.Valid()
      modifies issuer
      ensures issuer.Valid()
    {
      for i := 0 to |steps|
        invariant issuer.Valid()
      {
        var _ := issuer.Perform(steps[i].call, steps[i].now);
      }
    }

    /** `issuerPost`: whatever others do comes first; a refusal or the end of the process throws. */
    method Post(call: Call) returns (ok: bool)
      requires issuer.Valid() && !call.Reserve? && call.ref == ref && !call.Claim? && call.claim == claim
      requires posts < |others| == |times|
      modifies issuer, this
      ensures issuer.Valid() && posts == old(posts) + 1
      ensures ok ==> ref in issuer.rows
      ensures ok && call.MarkVerified? ==>
        issuer.rows[ref].state.RuntimeVerified? && issuer.rows[ref].claimRef == Some(claim)
      ensures ok && call.MarkReconciliation? ==>
        issuer.rows[ref].state.ReconciliationRequired? && issuer.rows[ref].failure == Some(call.reason)
        && issuer.rows[ref].reconciliationDigest == Some(call.digest)
      ensures ok && call.Finalize? ==>
        issuer.rows[ref].state == call.outcome && issuer.rows[ref].receiptDigest == Some(call.receipt)
    {
      Interfere(others[posts]);
      posts := posts + 1;
      if lives == 0 {
        return false;
      }
      lives := lives - 1;
      ok := issuer.Perform(call, times[posts - 1]);
    }

    /** `runHumanAuthorityBootstrapControlPlane`: claim, compare with the own clock, observe the
        provider, and post what follows.  None: the run threw, or its process died. */
    method Run(principal: string, until: int, claimTime: int, clock: int, bound: Option<bool>, digest: string)
      returns (r: Option<Report>)
      requires issuer.Valid() && posts == 0 && |others| == |times| >= 4
      modifies issuer, this
      ensures issuer.Valid()
      ensures r.Some? ==> ref in issuer.rows
      ensures r == Some(ReportVerified) ==>
        issuer.rows[ref].state.RuntimeVerified? && issuer.rows[ref].claimRef == Some(claim)
      ensures r == Some(ReportVerified) ==>
        issuer.rows[ref].mutationDigest.Some? && issuer.rows[ref].evidenceDigest.Some?
      ensures r == Some(ReportConflict) ==> issuer.rows[ref].state == State.Conflict
      ensures r == Some(ReportReconciliation) ==> issuer.rows[ref].state.ReconciliationRequired?
      ensures r == Some(ReportVerified) ==> bound == Some(true)
      ensures r.Some? ==>
        ref in old(issuer.rows) && clock < until && clock < old(issuer.rows)[ref].expiresAt
      ensures r == Some(ReportConflict) ==>
        bound == Some(false) && issuer.rows[ref].receiptDigest == Some(digest)
        && (old(issuer.rows)[ref].state.Pending? || old(issuer.rows)[ref].state.Applying?)
      ensures r == Some(ReportReconciliation) ==>
        && issuer.rows[ref].reconciliationDigest == Some(digest)
        && if bound.None? then issuer.rows[ref].failure == Some("PROVIDER_ATOMIC_CREATE_UNAVAILABLE")
           else
             !bound.value && issuer.rows[ref].failure == Some("PROVIDER_STATE_DRIFT")
             && !old(issuer.rows)[ref].state.Pending? && !old(issuer.rows)[ref].state.Applying?
    {
      var claimed := issuer.ClaimIntent(ref, claim, principal, until, claimTime);
      if claimed.None? || lives == 0 {
        return None;
      }
      var state := claimed.value.state;
      if claimed.value.expiresAt <= clock || until <= clock {
        return None;
      }
      if bound.None? {
        var ok := Post(MarkReconciliation(ref, claim, digest, "PROVIDER_ATOMIC_CREATE_UNAVAILABLE"));
        return if ok then Some(ReportReconciliation) else None;
      }
      if !bound.value {
        if state.Applying? {
          var ok := Post(Finalize(ref, claim, State.Conflict, digest));
          return if ok then Some(ReportConflict) else None;
        }
        var ok := Post(MarkReconciliation(ref, claim, digest, "PROVIDER_STATE_DRIFT"));
        return if ok then Some(ReportReconciliation) else None;
      }
      if state.Applying? {
        var ok := Post(MarkApplied(ref, claim, digest));
        if !ok {
          return None;
        }
      }
      if state.Applying? || state.ProviderApplied? {
        var ok := Post(MarkVerifying(ref, claim));
        if !ok {
          return None;
        }
      }
      if !state.RuntimeVerified? {
        var ok := Post(MarkVerified(ref, claim, digest));
        if !ok {
          return None;
        }
      }
      r := Some(ReportVerified);
    }
  }

  /** The intent is the one active intent of the candidate's target. */
  ghost predicate HeldBy(rows: Rows, intent: Intent, c: Candidate) {
    intent.target == c.target && Active(intent.state) && exists k :: k in rows && rows[k] == intent
  }
}
