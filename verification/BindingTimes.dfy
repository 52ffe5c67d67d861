/** The binding table and the clock: how long an intent and a claim last, and what one intent's row
    holds from its reservation to its end. */
module BindingTimes {
  import opened Base
  import opened Binding

  /** A claim granted at `now` keeps every other claim out until it ends, and then lets one in, as long
      as the intent lasts. */
  lemma ClaimLasts(rows: Rows, ref: string, claim: string, principal: string, until: int, now: int,
                   other: string, another: string, longer: int, t: int)
    requires Granted(rows, Claim(ref, claim, principal, until), now)
    ensures ref in rows && now < rows[ref].expiresAt
    ensures var after := After(rows, Claim(ref, claim, principal, until), now);
      Granted(after, Claim(ref, other, another, longer), t) <==> until <= t < rows[ref].expiresAt
  {
  }

  /** While it lasts, and the intent does, its holder's call is granted in the phase that is due; from
      its end on, or the intent's, no call of the holder is. */
  lemma HolderHeard(rows: Rows, ref: string, claim: string, principal: string, until: int, now: int, call: Call, t: int)
    requires Granted(rows, Claim(ref, claim, principal, until), now)
    requires !call.Reserve? && !call.Claim? && call.ref == ref && call.claim == claim
    requires TableSound(rows)
    ensures var after := After(rows, Claim(ref, claim, principal, until), now);
      ref in after && var state := after[ref].state;
      && (state.Applying? || state.ProviderApplied? || state.Verifying? || state.RuntimeVerified?)
      && (Granted(after, call, t) <==>
            && t < until && t < rows[ref].expiresAt
            && match call
               case MarkApplied(_, _, _) => state.Applying?
               case MarkVerifying(_, _) => state.ProviderApplied?
               case MarkVerified(_, _, _) => state.Verifying?
               case Finalize(_, _, outcome, _) => outcome.Conflict? || outcome.Failed?
               case _ => true)
  {
  }

  /** Neither bound nor in conflict nor failed. */
  predicate Unfinished(s: State) { !s.Bound? && !s.Conflict? && !s.Failed? }

  function TimedOut(row: Intent): Intent {
    row.(state := Failed, failure := Some("INTENT_EXPIRED"), claimRef := None, claimUntil := None)
  }

  /** An intent that ran out: whatever phase it was in, claiming it or reserving its target fails it and
      takes its claim away, and every other call leaves the table alone. */
  lemma RanOut(rows: Rows, ref: string, call: Call, now: int)
    requires ref in rows && rows[ref].expiresAt <= now && Unfinished(rows[ref].state)
    requires match call case Reserve(_, c) => c.target == rows[ref].target case _ => call.ref == ref
    ensures var after, failed := After(rows, call, now), TimedOut(rows[ref]);
      match call
      case Claim(_, _, _, _) => !Granted(rows, call, now) && after == rows[ref := failed]
      case Reserve(used, c) => ref in after && (after[ref] == failed || (after == rows && used in rows))
      case _ => !Granted(rows, call, now) && after == rows
  {
  }

  /** A reservation, row by row: what of the target was active and ran out fails, any other row stays;
      the new intent is written exactly when the target then has no active one and the reference
      is new, and a used reference undoes it all. */
  lemma ReservedExactly(rows: Rows, ref: string, c: Candidate, now: int)
    ensures var after := After(rows, Reserve(ref, c), now);
      var lasting := exists r ::
        r in rows && rows[r].target == c.target && Unfinished(rows[r].state) && rows[r].expiresAt > now;
      && (Granted(rows, Reserve(ref, c), now) <==> !lasting && ref !in rows)
      && (!lasting && ref in rows ==> after == rows)
      && (lasting || ref !in rows ==>
            && after.Keys == rows.Keys + (if lasting then {} else {ref})
            && forall r :: r in rows ==>
                 var over := rows[r].target == c.target && Unfinished(rows[r].state) && rows[r].expiresAt <= now;
                 after[r] == if over then TimedOut(rows[r]) else rows[r])
      && (!lasting && ref !in rows ==>
            after[ref] == Intent(c.target, Pending, c.subject, c.sealed, c.expiresAt, c.createdAt,
              None, None, None, None, None, None, None, None))
  {
    var kept := ExpiredRows(rows, c.target, now);
    if r :| r in rows && rows[r].target == c.target && Unfinished(rows[r].state) && rows[r].expiresAt > now {
      assert kept[r] == rows[r] && Active(kept[r].state);
    }
    if HasActive(kept, c.target) {
      var r :| r in kept && kept[r].target == c.target && Active(kept[r].state);
      assert rows[r] == kept[r];
    }
  }

  /** One intent from its reservation on: claimed, applied, verifying and verified in time, its row
      holds the candidate, the claim, its principal and both digests; and from any phase, in time,
      its holder can call for reconciliation or end it, which gives the claim up. */
  lemma LifeOfIntent(rows: Rows, ref: string, c: Candidate, reserved: int, claim: string, principal: string, until: int,
                     t: seq<int>, applied: string, verified: string, k: nat, digest: string, reason: string,
                     outcome: State)
    requires Granted(rows, Reserve(ref, c), reserved) && |t| == 5 && k < 4
    requires forall i :: 0 <= i < 5 ==> t[i] < until && t[i] < c.expiresAt
    ensures var calls := [Claim(ref, claim, principal, until), MarkApplied(ref, claim, applied),
      MarkVerifying(ref, claim), MarkVerified(ref, claim, verified)];
      var row := Intent(c.target, [Applying, ProviderApplied, Verifying, RuntimeVerified][k], c.subject, c.sealed,
        c.expiresAt, c.createdAt, Some(claim), Some(until), Some(principal),
        if k >= 1 then Some(applied) else None, if k == 3 then Some(verified) else None, None, None, None);
      var r0 := After(rows, Reserve(ref, c), reserved);
      var r1 := After(r0, calls[0], t[0]);
      var r2 := if k < 1 then r1 else After(r1, calls[1], t[1]);
      var r3 := if k < 2 then r2 else After(r2, calls[2], t[2]);
      var r4 := if k < 3 then r3 else After(r3, calls[3], t[3]);
      && ref in r4 && r4[ref] == row
      && After(r4, MarkReconciliation(ref, claim, digest, reason), t[4]) ==
           r4[ref := row.(state := ReconciliationRequired, reconciliationDigest := Some(digest),
             failure := Some(reason),
             claimRef := None, claimUntil := None)]
      && (outcome.Conflict? || outcome.Failed? ==>
            After(r4, Finalize(ref, claim, outcome, digest), t[4]) ==
              r4[ref := row.(state := outcome, receiptDigest := Some(digest), claimRef := None, claimUntil := None)])
  {
    var r0 := After(rows, Reserve(ref, c), reserved);
    assert r0[ref] == NewIntent(c);
    var r1 := After(r0, Claim(ref, claim, principal, until), t[0]);
    assert r1[ref].claimRef == Some(claim) && r1[ref].state.Applying?;
  }
}
