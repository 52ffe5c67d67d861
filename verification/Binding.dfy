/** The table of authority-binding intents: each transaction of the repository as one step, and
    what holds over every run of them, whatever clock each caller reads. */
module Binding {
  import opened Base

  datatype State =
    | Pending | Applying | ProviderApplied | Verifying | RuntimeVerified
    | ReconciliationRequired | Bound | Conflict | Failed

  datatype Intent = Intent(
    target: string, state: State, subject: string, sealed: string, expiresAt: int, createdAt: int,
    claimRef: Option<string>, claimUntil: Option<int>, principal: Option<string>,
    mutationDigest: Option<string>, evidenceDigest: Option<string>, reconciliationDigest: Option<string>,
    receiptDigest: Option<string>, failure: Option<string>)

  /** The rows by intent reference. */
  type Rows = map<string, Intent>

  datatype Candidate = Candidate(target: string, subject: string, sealed: string, expiresAt: int, createdAt: int)

  datatype Call =
    | Reserve(ref: string, candidate: Candidate)
    | Claim(ref: string, claim: string, principal: string, until: int)
    | MarkApplied(ref: string, claim: string, digest: string)
    | MarkReconciliation(ref: string, claim: string, digest: string, reason: string)
    | MarkVerifying(ref: string, claim: string)
    | MarkVerified(ref: string, claim: string, digest: string)
    | Finalize(ref: string, claim: string, outcome: State, receipt: string)

  predicate Active(s: State) {
    || s.Pending? || s.Applying? || s.ProviderApplied? || s.Verifying? || s.RuntimeVerified?
    || s.ReconciliationRequired?
  }

  /** The states a claim can be held in. */
  predicate Working(s: State) { s.Applying? || s.ProviderApplied? || s.Verifying? || s.RuntimeVerified? }

  function Expired(row: Intent, now: int): Intent {
    if Active(row.state) && row.expiresAt <= now then
      row.(state := Failed, failure := Some("INTENT_EXPIRED"), claimRef := None, claimUntil := None)
    else row
  }

  function NewIntent(c: Candidate): Intent {
    Intent(c.target, Pending, c.subject, c.sealed, c.expiresAt, c.createdAt,
           None, None, None, None, None, None, None, None)
  }

  /** The rows after the expiry pass over one target. */
  function ExpiredRows(rows: Rows, target: string, now: int): Rows {
    map r | r in rows :: if rows[r].target == target then Expired(rows[r], now) else rows[r]
  }

  ghost predicate HasActive(rows: Rows, target: string) {
    exists r :: r in rows && rows[r].target == target && Active(rows[r].state)
  }

  predicate Reclaimable(row: Intent, now: int) {
    row.state.Pending? || (Working(row.state) && row.claimUntil.Some? && row.claimUntil.value <= now)
  }

  /** The claim is the row's, and neither it nor the intent has run out. */
  predicate Holds(row: Intent, claim: string, now: int) {
    row.claimRef == Some(claim) && row.claimUntil.Some? && row.claimUntil.value > now && row.expiresAt > now
  }

  /** The call has its effect: a claim is given, a mark is made, an intent is inserted. */
  ghost predicate Granted(rows: Rows, call: Call, now: int) {
    match call
    case Reserve(ref, c) => !HasActive(ExpiredRows(rows, c.target, now), c.target) && ref !in rows
    case Claim(ref, _, _, _) => ref in rows && rows[ref].expiresAt > now && Reclaimable(rows[ref], now)
    case MarkApplied(ref, claim, _) => ref in rows && Holds(rows[ref], claim, now) && rows[ref].state.Applying?
    case MarkReconciliation(ref, claim, _, _) => ref in rows && Holds(rows[ref], claim, now) && Working(rows[ref].state)
    case MarkVerifying(ref, claim) => ref in rows && Holds(rows[ref], claim, now) && rows[ref].state.ProviderApplied?
    case MarkVerified(ref, claim, _) => ref in rows && Holds(rows[ref], claim, now) && rows[ref].state.Verifying?
    case Finalize(ref, claim, outcome, _) =>
      (outcome.Conflict? || outcome.Failed?) && ref in rows && Holds(rows[ref], claim, now) && Working(rows[ref].state)
  }

  /** The row of the call after its effect. */
  function Changed(row: Intent, call: Call): Intent
    requires !call.Reserve?
  {
    match call
    case Claim(_, claim, principal, until) =>
      row.(state := if row.state.Pending? then Applying else row.state,
           claimRef := Some(claim), claimUntil := Some(until), principal := Some(principal))
    case MarkApplied(_, _, digest) => row.(state := ProviderApplied, mutationDigest := Some(digest))
    case MarkReconciliation(_, _, digest, reason) =>
      row.(state := ReconciliationRequired, reconciliationDigest := Some(digest), failure := Some(reason),
           claimRef := None, claimUntil := None)
    case MarkVerifying(_, _) => row.(state := Verifying)
    case MarkVerified(_, _, digest) => row.(state := RuntimeVerified, evidenceDigest := Some(digest))
    case Finalize(_, _, outcome, receipt) =>
      row.(state := outcome, receiptDigest := Some(receipt), claimRef := None, claimUntil := None)
  }

  /** One transaction.  A reservation whose reference is taken fails as a whole. */
  ghost function After(rows: Rows, call: Call, now: int): Rows {
    match call
    case Reserve(ref, c) =>
      var kept := ExpiredRows(rows, c.target, now);
      if HasActive(kept, c.target) then kept
      else if ref in rows then rows
      else kept[ref := NewIntent(c)]
    case Claim(ref, _, _, _) =>
      if Granted(rows, call, now) then rows[ref := Changed(rows[ref], call)]
      else if ref in rows && rows[ref].expiresAt <= now then rows[ref := Expired(rows[ref], now)]
      else rows
    case _ => if Granted(rows, call, now) then rows[call.ref := Changed(rows[call.ref], call)] else rows
  }

  /** No two active intents share a target. */
  ghost predicate OneActive(rows: Rows) {
    forall a, b :: a in rows && b in rows && Compete(rows[a], rows[b]) ==> a == b
  }

  predicate Compete(a: Intent, b: Intent) { Active(a.state) && Active(b.state) && a.target == b.target }

  /** A row holds a claim exactly in the working states, and its digests are those of the phases
      it went through. */
  predicate RowSound(row: Intent) {
    && (Working(row.state) <==> row.claimRef.Some?)
    && (row.claimRef.Some? <==> row.claimUntil.Some?)
    && (row.state.ProviderApplied? || row.state.Verifying? || row.state.RuntimeVerified? ==> row.mutationDigest.Some?)
    && (row.state.RuntimeVerified? ==> row.evidenceDigest.Some?)
  }

  ghost predicate TableSound(rows: Rows) {
    OneActive(rows) && forall r :: r in rows ==> RowSound(rows[r])
  }

  /** The order of the phases; what is left is left for good, and only failure follows the
      request for a reconciliation. */
  function Rank(s: State): nat {
    match s
    case Pending => 0
    case Applying => 1
    case ProviderApplied => 2
    case Verifying => 3
    case RuntimeVerified => 4
    case ReconciliationRequired => 5
    case _ => 6
  }

  /** From one step to the next a row stays in its phase, enters the next one, or a sink. */
  predicate PhaseStep(s: State, s': State) {
    || s' == s
    || (Rank(s) < 4 && Rank(s') == Rank(s) + 1)
    || (Active(s) && s'.Failed?)
    || (Working(s) && (s'.ReconciliationRequired? || s'.Conflict?))
  }

  /** Every transaction keeps the table sound, and moves every row forward only. */
  lemma StepKeeps(rows: Rows, call: Call, now: int)
    requires TableSound(rows)
    ensures TableSound(After(rows, call, now))
    ensures forall r :: r in rows ==>
      r in After(rows, call, now) && PhaseStep(rows[r].state, After(rows, call, now)[r].state)
    ensures forall r :: r in After(rows, call, now) && r !in rows ==> After(rows, call, now)[r].state.Pending?
  {
    hide RowSound;
    hide PhaseStep;
    hide OneActive;
    hide Expired;
    hide Changed;
    if call.Reserve? {
      ReserveKeeps(rows, call, now);
    } else if call.ref in rows {
      RowStep(rows[call.ref], call, now);
      if Granted(rows, call, now) {
        OneRowKeeps(rows, call.ref, Changed(rows[call.ref], call));
      } else {
        OneRowKeeps(rows, call.ref, Expired(rows[call.ref], now));
        forall r | r in rows ensures PhaseStep(rows[r].state, rows[r].state) { SamePhase(rows[r].state); }
      }
    } else {
      forall r | r in rows ensures PhaseStep(rows[r].state, rows[r].state) { SamePhase(rows[r].state); }
    }
  }

  lemma SamePhase(s: State)
    ensures PhaseStep(s, s)
  {
  }

  /** The row of a call, changed or expired. */
  lemma RowStep(row: Intent, call: Call, now: int)
    requires RowSound(row) && !call.Reserve?
    ensures var kept := Expired(row, now);
      RowSound(kept) && PhaseStep(row.state, kept.state) && kept.target == row.target
        && (Active(kept.state) ==> Active(row.state))
    ensures Granted(map[call.ref := row], call, now) ==>
      var changed := Changed(row, call);
      RowSound(changed) && PhaseStep(row.state, changed.state) && changed.target == row.target
        && (Active(changed.state) ==> Active(row.state))
  {
  }

  lemma OneRowKeeps(rows: Rows, ref: string, row: Intent)
    requires TableSound(rows) && ref in rows && RowSound(row) && PhaseStep(rows[ref].state, row.state)
    requires row.target == rows[ref].target && (Active(row.state) ==> Active(rows[ref].state))
    ensures TableSound(rows[ref := row])
    ensures forall r :: r in rows ==> PhaseStep(rows[r].state, rows[ref := row][r].state)
  {
    hide RowSound;
    hide PhaseStep;
    forall r | r in rows ensures PhaseStep(rows[r].state, rows[r].state) { SamePhase(rows[r].state); }
    var rows' := rows[ref := row];
    forall a, b | a in rows' && b in rows' && Compete(rows'[a], rows'[b]) ensures a == b {
      assert Compete(rows[a], rows[b]);
    }
  }

  /** A reservation: expiry frees the target, or the active intent stands. */
  lemma ReserveKeeps(rows: Rows, call: Call, now: int)
    requires TableSound(rows) && call.Reserve?
    ensures TableSound(After(rows, call, now))
    ensures forall r :: r in rows ==>
      r in After(rows, call, now) && PhaseStep(rows[r].state, After(rows, call, now)[r].state)
    ensures forall r :: r in After(rows, call, now) && r !in rows ==> After(rows, call, now)[r].state.Pending?
  {
    hide PhaseStep;
    hide Expired;
    hide ExpiredRows;
    var target := call.candidate.target;
    var kept, rows' := ExpiredRows(rows, target, now), After(rows, call, now);
    ExpiryKeeps(rows, target, now);
    forall r | r in rows ensures PhaseStep(rows[r].state, rows[r].state) { SamePhase(rows[r].state); }
    if !HasActive(kept, target) && call.ref !in rows {
      forall a, b | a in rows' && b in rows' && Compete(rows'[a], rows'[b]) ensures a == b {
        if a != call.ref && b != call.ref {
          assert Compete(kept[a], kept[b]);
        }
      }
    }
  }

  lemma ExpiryKeeps(rows: Rows, target: string, now: int)
    requires TableSound(rows)
    ensures TableSound(ExpiredRows(rows, target, now))
    ensures ExpiredRows(rows, target, now).Keys == rows.Keys
    ensures forall r :: r in rows ==> PhaseStep(rows[r].state, ExpiredRows(rows, target, now)[r].state)
  {
    var kept := ExpiredRows(rows, target, now);
    forall a, b | a in kept && b in kept && Compete(kept[a], kept[b]) ensures a == b {
      assert Compete(rows[a], rows[b]);
    }
  }

  /** A step and the time its process reads. */
  datatype Step = Step(call: Call, now: int)

  /** Claim references are drawn new: no earlier claim used the same one. */
  ghost predicate NewClaims(steps: seq<Step>) {
    forall i, j :: 0 <= i < j < |steps| && steps[i].call.Claim? && steps[j].call.Claim? ==>
      steps[i].call.claim != steps[j].call.claim
  }

  /** The tables of a run of transactions from an empty table. */
  ghost predicate IsRun(steps: seq<Step>, states: seq<Rows>) {
    && |states| == |steps| + 1 && states[0] == map[]
    && forall i :: 0 <= i < |steps| ==> states[i + 1] == After(states[i], steps[i].call, steps[i].now)
  }

  /** Safety over every run: at most one active intent per target, claims only in working states,
      digests where the phase says so. */
  lemma {:induction false} EveryRunSound(steps: seq<Step>, states: seq<Rows>, i: nat)
    requires IsRun(steps, states) && i <= |steps|
    ensures TableSound(states[i])
  {
    hide TableSound;
    hide After;
    if i == 0 {
      EmptySound();
    } else {
      EveryRunSound(steps, states, i - 1);
      StepKeeps(states[i - 1], steps[i - 1].call, steps[i - 1].now);
      assert states[i - 1 + 1] == After(states[i - 1], steps[i - 1].call, steps[i - 1].now);
    }
  }

  lemma EmptySound()
    ensures TableSound(map[])
  {
  }

  /** Rows never disappear, and their phase never goes back. */
  lemma {:induction false} PhasesAdvance(steps: seq<Step>, states: seq<Rows>, i: nat, k: nat, r: string)
    requires IsRun(steps, states) && i <= k <= |steps| && r in states[i]
    ensures r in states[k] && Rank(states[i][r].state) <= Rank(states[k][r].state)
    decreases k
  {
    hide TableSound;
    hide After;
    if i < k {
      PhasesAdvance(steps, states, i, k - 1, r);
      EveryRunSound(steps, states, k - 1);
      StepKeeps(states[k - 1], steps[k - 1].call, steps[k - 1].now);
      assert states[k - 1 + 1] == After(states[k - 1], steps[k - 1].call, steps[k - 1].now);
    }
  }

  /** The row was in the phase at the time. */
  predicate At(states: seq<Rows>, k: int, r: string, s: State) {
    0 <= k < |states| && r in states[k] && states[k][r].state == s
  }

  /** How a row came to be in a working phase: it was in it before, or in the one before. */
  lemma CameFrom(rows: Rows, call: Call, now: int, r: string)
    requires TableSound(rows) && r in After(rows, call, now)
    ensures var s := After(rows, call, now)[r].state;
      s.ProviderApplied? || s.Verifying? || s.RuntimeVerified? ==>
        r in rows && (rows[r].state == s || Rank(rows[r].state) == Rank(s) - 1)
  {
    hide TableSound;
    hide After;
    StepKeeps(rows, call, now);
  }

  /** A verified intent went through its phases in order: applied by the provider, then being
      verified, then verified; and both digests are on record. */
  lemma {:induction false} VerifiedInOrder(steps: seq<Step>, states: seq<Rows>, k: nat, r: string)
    returns (a: nat, b: nat, c: nat)
    requires IsRun(steps, states) && k <= |steps| && At(states, k, r, RuntimeVerified)
    ensures a < b < c <= k
    ensures At(states, a, r, ProviderApplied) && At(states, b, r, Verifying) && At(states, c, r, RuntimeVerified)
    ensures states[k][r].mutationDigest.Some? && states[k][r].evidenceDigest.Some?
  {
    EveryRunSound(steps, states, k);
    EveryRunSound(steps, states, k - 1);
    assert states[k - 1 + 1] == After(states[k - 1], steps[k - 1].call, steps[k - 1].now);
    CameFrom(states[k - 1], steps[k - 1].call, steps[k - 1].now, r);
    if At(states, k - 1, r, RuntimeVerified) {
      a, b, c := VerifiedInOrder(steps, states, k - 1, r);
    } else {
      c := k;
      a, b := VerifyingInOrder(steps, states, k - 1, r);
    }
  }

  lemma {:induction false} VerifyingInOrder(steps: seq<Step>, states: seq<Rows>, k: nat, r: string)
    returns (a: nat, b: nat)
    requires IsRun(steps, states) && k <= |steps| && At(states, k, r, Verifying)
    ensures a < b <= k && At(states, a, r, ProviderApplied) && At(states, b, r, Verifying)
  {
    EveryRunSound(steps, states, k - 1);
    assert states[k - 1 + 1] == After(states[k - 1], steps[k - 1].call, steps[k - 1].now);
    CameFrom(states[k - 1], steps[k - 1].call, steps[k - 1].now, r);
    if At(states, k - 1, r, Verifying) {
      a, b := VerifyingInOrder(steps, states, k - 1, r);
    } else {
      a, b := k - 1, k;
    }
  }

  /** Only the call that draws a claim can put it on a row. */
  lemma ClaimAppears(rows: Rows, call: Call, now: int, r: string, claim: string)
    requires r in After(rows, call, now) && After(rows, call, now)[r].claimRef == Some(claim)
    ensures (r in rows && rows[r].claimRef == Some(claim)) || (call.Claim? && call.ref == r && call.claim == claim)
  {
  }

  /** If a claim is on a row, it was drawn for that row before. */
  lemma {:induction false} ClaimWasDrawn(steps: seq<Step>, states: seq<Rows>, i: nat, r: string, claim: string)
    returns (d: nat)
    requires IsRun(steps, states) && i <= |steps| && r in states[i] && states[i][r].claimRef == Some(claim)
    ensures d < i && steps[d].call.Claim? && steps[d].call.claim == claim && steps[d].call.ref == r
  {
    hide After;
    assert states[i - 1 + 1] == After(states[i - 1], steps[i - 1].call, steps[i - 1].now);
    ClaimAppears(states[i - 1], steps[i - 1].call, steps[i - 1].now, r, claim);
    if r in states[i - 1] && states[i - 1][r].claimRef == Some(claim) {
      d := ClaimWasDrawn(steps, states, i - 1, r, claim);
    } else {
      d := i - 1;
    }
  }

  /** A claim that a row once had and lost, because it was superseded, released, finalized or
      expired, never comes back to any row. */
  lemma {:induction false} LostForGood(steps: seq<Step>, states: seq<Rows>, i: nat, j: nat, k: nat, r: string,
                                       other: string, claim: string)
    requires IsRun(steps, states) && NewClaims(steps) && i < j <= k <= |steps|
    requires r in states[i] && states[i][r].claimRef == Some(claim)
    requires r in states[j] ==> states[j][r].claimRef != Some(claim)
    ensures other in states[k] ==> states[k][other].claimRef != Some(claim)
    decreases k
  {
    hide After;
    var d := ClaimWasDrawn(steps, states, i, r, claim);
    if other in states[k] && states[k][other].claimRef == Some(claim) {
      var e := ClaimWasDrawn(steps, states, k, other, claim);
      assert d == e;
      if k > j {
        LostForGood(steps, states, i, j, k - 1, r, other, claim);
        assert states[k - 1 + 1] == After(states[k - 1], steps[k - 1].call, steps[k - 1].now);
        ClaimAppears(states[k - 1], steps[k - 1].call, steps[k - 1].now, other, claim);
      }
    }
  }

  /** Fencing: once a claim is lost, every later call that presents it is refused and changes
      nothing, whatever time its process believes it is. */
  lemma Fenced(steps: seq<Step>, states: seq<Rows>, i: nat, j: nat, k: nat, r: string, claim: string)
    requires IsRun(steps, states) && NewClaims(steps) && i < j <= k < |steps|
    requires r in states[i] && states[i][r].claimRef == Some(claim)
    requires r in states[j] ==> states[j][r].claimRef != Some(claim)
    requires !steps[k].call.Reserve? && !steps[k].call.Claim? && steps[k].call.claim == claim
    ensures !Granted(states[k], steps[k].call, steps[k].now) && states[k + 1] == states[k]
  {
    LostForGood(steps, states, i, j, k, r, steps[k].call.ref, claim);
  }
}
