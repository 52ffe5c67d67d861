/** The control plane as a client of the intent table: any number of its runs, each of which may
    die at any point, interleaved with each other and with every other caller. */
module ControlPlane {
  import opened Base
  import opened Binding

  /** What the provider reports of the binding. */
  datatype Observation = AlreadyBound | BoundElsewhere | Unbound

  datatype Outcome = Verified | Conflicting | ToReconcile

  datatype Post = PostApplied | PostVerifying | PostVerified | PostReconciliation(reason: string) | PostConflict

  /** The posts a run makes after it observed the provider, and what it then reports. */
  datatype Agenda = Agenda(posts: seq<Post>, outcome: Outcome)

  function AgendaOf(state: State, seen: Observation): Agenda {
    match seen
    case Unbound => Agenda([PostReconciliation("PROVIDER_ATOMIC_CREATE_UNAVAILABLE")], ToReconcile)
    case BoundElsewhere =>
      if state.Applying? then Agenda([PostConflict], Conflicting)
      else Agenda([PostReconciliation("PROVIDER_STATE_DRIFT")], ToReconcile)
    case AlreadyBound =>
      Agenda((if state.Applying? then [PostApplied] else [])
             + (if state.Applying? || state.ProviderApplied? then [PostVerifying] else [])
             + (if !state.RuntimeVerified? then [PostVerified] else []),
             Verified)
  }

  function CallOf(ref: string, claim: string, p: Post, digest: string): Call {
    match p
    case PostApplied => MarkApplied(ref, claim, digest)
    case PostVerifying => MarkVerifying(ref, claim)
    case PostVerified => MarkVerified(ref, claim, digest)
    case PostReconciliation(reason) => MarkReconciliation(ref, claim, digest, reason)
    case PostConflict => Finalize(ref, claim, State.Conflict, digest)
  }

  /** A run of the control plane, and how far it got. */
  datatype Client =
    | Claimed(ref: string, claim: string, state: State)
    | Posting(ref: string, claim: string, todo: seq<Post>, outcome: Outcome)
    | Reported(ref: string, claim: string, outcome: Outcome)
    | Aborted

  datatype System = System(rows: Rows, clients: map<nat, Client>)

  /** One step of the system.  `delivered` is false when the answer of the issuer is lost: the
      transaction may have happened, and the run throws.  A run that is never stepped again, or
      crashes, is a dead one. */
  datatype Move =
    | ByOther(call: Call, now: int)
    | ClientClaims(id: nat, ref: string, claim: string, principal: string, until: int, now: int, clock: int,
      delivered: bool)
    | ClientObserves(id: nat, seen: Observation)
    | ClientPosts(id: nat, digest: string, now: int, delivered: bool)
    | ClientCrashes(id: nat)

  function Begin(ref: string, claim: string, agenda: Agenda): Client {
    if agenda.posts == [] then Reported(ref, claim, agenda.outcome)
    else Posting(ref, claim, agenda.posts, agenda.outcome)
  }

  ghost function Moved(s: System, move: Move): System {
    match move
    case ByOther(call, now) => s.(rows := After(s.rows, call, now))
    case ClientClaims(id, ref, claim, principal, until, now, clock, delivered) =>
      var call := Claim(ref, claim, principal, until);
      var rows := After(s.rows, call, now);
      if id in s.clients then s
      else if Granted(s.rows, call, now) && delivered && rows[ref].expiresAt > clock && until > clock then
        System(rows, s.clients[id := Claimed(ref, claim, rows[ref].state)])
      else System(rows, s.clients[id := Aborted])
    case ClientObserves(id, seen) =>
      if id in s.clients && s.clients[id].Claimed? then
        var c := s.clients[id];
        s.(clients := s.clients[id := Begin(c.ref, c.claim, AgendaOf(c.state, seen))])
      else s
    case ClientPosts(id, digest, now, delivered) =>
      if id in s.clients && s.clients[id].Posting? && s.clients[id].todo != [] then
        var c := s.clients[id];
        var call := CallOf(c.ref, c.claim, c.todo[0], digest);
        var rows := After(s.rows, call, now);
        if Granted(s.rows, call, now) && delivered then
          System(rows, s.clients[id := Begin(c.ref, c.claim, Agenda(c.todo[1..], c.outcome))])
        else System(rows, s.clients[id := Aborted])
      else s
    case ClientCrashes(id) => s.(clients := s.clients[id := Aborted])
  }

  /** The states of a run of the whole system from an empty table. */
  ghost predicate IsSystemRun(moves: seq<Move>, states: seq<System>) {
    && |states| == |moves| + 1 && states[0] == System(map[], map[])
    && forall i :: 0 <= i < |moves| ==> states[i + 1] == Moved(states[i], moves[i])
  }

  /** At time `k` the claim was on the row, in this state. */
  predicate HeldAt(states: seq<System>, k: int, ref: string, claim: string, state: State) {
    && 0 <= k < |states| && ref in states[k].rows
    && states[k].rows[ref].claimRef == Some(claim) && states[k].rows[ref].state == state
  }

  /** At time `k` the claim was on the row, and the next step moved the row to this state. */
  predicate LeftAt(states: seq<System>, k: int, ref: string, claim: string, state: State) {
    && 0 <= k < |states| - 1 && ref in states[k].rows && ref in states[k + 1].rows
    && states[k].rows[ref].claimRef == Some(claim) && states[k + 1].rows[ref].state == state
  }

  ghost predicate Truthful(states: seq<System>, i: int, ref: string, claim: string, outcome: Outcome) {
    match outcome
    case Verified => exists k :: k <= i && HeldAt(states, k, ref, claim, RuntimeVerified)
    case Conflicting =>
      && (exists k :: k < i && LeftAt(states, k, ref, claim, State.Conflict))
      && (exists k :: k < i && HeldAt(states, k, ref, claim, Applying))
    case ToReconcile => exists k :: k < i && LeftAt(states, k, ref, claim, ReconciliationRequired)
  }

  /** What is known of a run of the control plane at time `i`. */
  ghost predicate ClientSound(states: seq<System>, i: int, c: Client) {
    match c
    case Claimed(ref, claim, state) => Working(state) && exists k :: k <= i && HeldAt(states, k, ref, claim, state)
    case Posting(ref, claim, todo, outcome) =>
      && todo != []
      && (outcome.Verified? ==> todo[|todo| - 1].PostVerified?)
      && (outcome.Conflicting? ==>
            todo == [PostConflict] && exists k :: k <= i && HeldAt(states, k, ref, claim, Applying))
      && (outcome.ToReconcile? ==> |todo| == 1 && todo[0].PostReconciliation?)
    case Reported(ref, claim, outcome) => Truthful(states, i, ref, claim, outcome)
    case Aborted => true
  }

  lemma LaterToo(states: seq<System>, i: int, c: Client)
    requires ClientSound(states, i, c)
    ensures ClientSound(states, i + 1, c)
  {
    match c {
      case Claimed(ref, claim, state) =>
        var k :| k <= i && HeldAt(states, k, ref, claim, state);
        assert k <= i + 1 && HeldAt(states, k, ref, claim, state);
      case Posting(ref, claim, todo, outcome) =>
        if outcome.Conflicting? {
          var k :| k <= i && HeldAt(states, k, ref, claim, Applying);
          assert k <= i + 1 && HeldAt(states, k, ref, claim, Applying);
        }
      case Reported(ref, claim, outcome) =>
        match outcome {
          case Verified =>
            var k :| k <= i && HeldAt(states, k, ref, claim, RuntimeVerified);
            assert k <= i + 1 && HeldAt(states, k, ref, claim, RuntimeVerified);
          case Conflicting =>
            var k :| k < i && LeftAt(states, k, ref, claim, State.Conflict);
            assert k < i + 1 && LeftAt(states, k, ref, claim, State.Conflict);
            var l :| l < i && HeldAt(states, l, ref, claim, Applying);
            assert l < i + 1 && HeldAt(states, l, ref, claim, Applying);
          case ToReconcile =>
            var k :| k < i && LeftAt(states, k, ref, claim, ReconciliationRequired);
            assert k < i + 1 && LeftAt(states, k, ref, claim, ReconciliationRequired);
        }
      case _ =>
    }
  }

  lemma AgendaSound(states: seq<System>, i: int, c: Client, seen: Observation)
    requires c.Claimed? && ClientSound(states, i, c)
    ensures ClientSound(states, i + 1, Begin(c.ref, c.claim, AgendaOf(c.state, seen)))
  {
    LaterToo(states, i, c);
    var agenda := AgendaOf(c.state, seen);
    if agenda.posts == [] {
      assert c.state.RuntimeVerified?;
      var k :| k <= i + 1 && HeldAt(states, k, c.ref, c.claim, c.state);
      assert Truthful(states, i + 1, c.ref, c.claim, Verified);
    }
  }

  /** The last post of an agenda leaves the row as the report says. */
  lemma PostSound(states: seq<System>, i: int, c: Client, digest: string, now: int)
    requires c.Posting? && ClientSound(states, i, c) && 0 <= i < |states| - 1
    requires var call := CallOf(c.ref, c.claim, c.todo[0], digest);
      Granted(states[i].rows, call, now) && states[i + 1].rows == After(states[i].rows, call, now)
    ensures ClientSound(states, i + 1, Begin(c.ref, c.claim, Agenda(c.todo[1..], c.outcome)))
  {
    if |c.todo| == 1 {
      match c.outcome {
        case Verified => assert HeldAt(states, i + 1, c.ref, c.claim, RuntimeVerified);
        case Conflicting => assert LeftAt(states, i, c.ref, c.claim, State.Conflict);
        case ToReconcile => assert LeftAt(states, i, c.ref, c.claim, ReconciliationRequired);
      }
    }
  }

  /** Over every run of the system, with every interleaving, crash, lost answer and clock: a run of
      the control plane that reports RUNTIME_VERIFIED held the claim while the row was
      RUNTIME_VERIFIED, and one that reports a conflict or a reconciliation held it when the row
      was moved there. */
  lemma {:induction false} EveryReportTruthful(moves: seq<Move>, states: seq<System>, i: nat, id: nat)
    requires IsSystemRun(moves, states) && i <= |moves|
    requires id in states[i].clients
    ensures ClientSound(states, i, states[i].clients[id])
  {
    hide ClientSound;
    hide Granted;
    hide After;
    hide AgendaOf;
    hide Begin;
    var s, move := states[i - 1], moves[i - 1];
    assert states[i - 1 + 1] == Moved(s, move);
    if id in s.clients {
      EveryReportTruthful(moves, states, i - 1, id);
      LaterToo(states, i - 1, s.clients[id]);
    }
    AbortedSound(states, i);
    if !move.ByOther? && move.id == id {
      match move {
        case ClientClaims(_, ref, claim, principal, until, now, clock, delivered) =>
          if id !in s.clients && Granted(s.rows, Claim(ref, claim, principal, until), now) {
            ClaimSound(states, i, ref, claim, principal, until, now);
          }
        case ClientObserves(_, seen) =>
          if id in s.clients && s.clients[id].Claimed? { AgendaSound(states, i - 1, s.clients[id], seen); }
        case ClientPosts(_, digest, now, delivered) =>
          if id in s.clients && s.clients[id].Posting? && s.clients[id].todo != [] {
            if Granted(s.rows, CallOf(s.clients[id].ref, s.clients[id].claim, s.clients[id].todo[0], digest), now)
              && delivered {
              PostSound(states, i - 1, s.clients[id], digest, now);
            }
          }
        case ClientCrashes(_) =>
      }
    }
  }

  lemma AbortedSound(states: seq<System>, i: int)
    ensures ClientSound(states, i, Aborted)
  {
  }

  lemma ClaimSound(states: seq<System>, i: nat, ref: string, claim: string, principal: string, until: int, now: int)
    requires 0 < i < |states| && Granted(states[i - 1].rows, Claim(ref, claim, principal, until), now)
    requires states[i].rows == After(states[i - 1].rows, Claim(ref, claim, principal, until), now)
    ensures ref in states[i].rows && ClientSound(states, i, Claimed(ref, claim, states[i].rows[ref].state))
  {
    assert HeldAt(states, i, ref, claim, states[i].rows[ref].state);
  }

  /** A claim becomes a run's exactly when it was granted, its answer arrived, and by the run's own
      clock neither the intent nor the claim has run out. */
  lemma ClaimTaken(s: System, id: nat, ref: string, claim: string, principal: string, until: int, now: int,
                   clock: int, delivered: bool)
    requires id !in s.clients
    ensures var call := Claim(ref, claim, principal, until);
      var s' := Moved(s, ClientClaims(id, ref, claim, principal, until, now, clock, delivered));
      && s'.rows == After(s.rows, call, now) && id in s'.clients
      && (s'.clients[id].Claimed? <==>
            Granted(s.rows, call, now) && delivered && clock < s.rows[ref].expiresAt && clock < until)
      && (!s'.clients[id].Claimed? ==> s'.clients[id].Aborted?)
  {
  }

  /** The table stays sound under every run of the system. */
  lemma {:induction false} SystemSound(moves: seq<Move>, states: seq<System>, i: nat)
    requires IsSystemRun(moves, states) && i <= |moves|
    ensures TableSound(states[i].rows)
  {
    hide TableSound;
    hide After;
    if i == 0 {
      EmptySound();
    } else {
      SystemSound(moves, states, i - 1);
      assert states[i - 1 + 1] == Moved(states[i - 1], moves[i - 1]);
      MovedSound(states[i - 1], moves[i - 1]);
    }
  }

  lemma MovedSound(s: System, move: Move)
    requires TableSound(s.rows)
    ensures TableSound(Moved(s, move).rows)
  {
    hide TableSound;
    hide After;
    match move {
      case ByOther(call, now) => StepKeeps(s.rows, call, now);
      case ClientClaims(_, ref, claim, principal, until, now, _, _) =>
        StepKeeps(s.rows, Claim(ref, claim, principal, until), now);
      case ClientPosts(id, digest, now, _) =>
        if id in s.clients && s.clients[id].Posting? && s.clients[id].todo != [] {
          StepKeeps(s.rows, CallOf(s.clients[id].ref, s.clients[id].claim, s.clients[id].todo[0], digest), now);
        }
      case _ =>
    }
  }

  /** So a report of RUNTIME_VERIFIED is backed by a row that carried both digests while the
      reporting run held its claim. */
  lemma VerifiedReportBacked(moves: seq<Move>, states: seq<System>, i: nat, id: nat) returns (k: nat)
    requires IsSystemRun(moves, states) && i <= |moves| && id in states[i].clients
    requires states[i].clients[id].Reported? && states[i].clients[id].outcome.Verified?
    ensures k <= i && HeldAt(states, k, states[i].clients[id].ref, states[i].clients[id].claim, RuntimeVerified)
    ensures var row := states[k].rows[states[i].clients[id].ref]; row.mutationDigest.Some? && row.evidenceDigest.Some?
  {
    EveryReportTruthful(moves, states, i, id);
    var c := states[i].clients[id];
    k :| k <= i && HeldAt(states, k, c.ref, c.claim, RuntimeVerified);
    SystemSound(moves, states, k);
  }

  /** The table after a run's posts, made at once and left alone by others; None if one is refused. */
  ghost function Posted(rows: Rows, ref: string, claim: string, posts: seq<Post>, digest: string,
                        t: int): Option<Rows> {
    if posts == [] then Some(rows)
    else
      var call := CallOf(ref, claim, posts[0], digest);
      if Granted(rows, call, t) then Posted(After(rows, call, t), ref, claim, posts[1..], digest, t) else None
  }

  /** A run that holds the claim in time and is left alone is never refused.  A provider already bound
      ends in RUNTIME_VERIFIED, from whatever phase the claim found; one bound to somebody else ends
      in a conflict if nothing was applied yet and asks for reconciliation otherwise, as does one
      that is not bound. */
  lemma UndisturbedRun(rows: Rows, ref: string, claim: string, seen: Observation, digest: string, t: int)
    requires InHand(rows, ref, claim, t)
    ensures var row, agenda := rows[ref], AgendaOf(rows[ref].state, seen);
      var after := Posted(rows, ref, claim, agenda.posts, digest, t);
      var given := row.(reconciliationDigest := Some(digest), state := ReconciliationRequired, claimRef := None,
        claimUntil := None);
      && after.Some?
      && match seen
         case AlreadyBound =>
           agenda.outcome.Verified? && ref in after.value && after.value[ref].state.RuntimeVerified?
           && after.value[ref].claimRef == Some(claim)
         case BoundElsewhere =>
           if row.state.Applying? then
             agenda.outcome.Conflicting? && after.value == rows[ref := row.(state := State.Conflict,
               receiptDigest := Some(digest), claimRef := None, claimUntil := None)]
           else
             agenda.outcome.ToReconcile? && after.value == rows[ref := given.(failure := Some("PROVIDER_STATE_DRIFT"))]
         case Unbound =>
           agenda.outcome.ToReconcile?
           && after.value == rows[ref := given.(failure := Some("PROVIDER_ATOMIC_CREATE_UNAVAILABLE"))]
  {
    if seen.AlreadyBound? { BoundRun(rows, ref, claim, digest, t); }
  }

  /** The table with the claim of a run on a working row, in time. */
  predicate InHand(rows: Rows, ref: string, claim: string, t: int) {
    && ref in rows && rows[ref].claimRef == Some(claim) && Working(rows[ref].state)
    && rows[ref].claimUntil.Some? && t < rows[ref].claimUntil.value && t < rows[ref].expiresAt
  }

  lemma BoundRun(rows: Rows, ref: string, claim: string, digest: string, t: int)
    requires InHand(rows, ref, claim, t)
    ensures var after := Posted(rows, ref, claim, AgendaOf(rows[ref].state, AlreadyBound).posts, digest, t);
      after.Some? && InHand(after.value, ref, claim, t) && after.value[ref].state.RuntimeVerified?
    decreases 4 - Rank(rows[ref].state)
  {
    var posts := AgendaOf(rows[ref].state, AlreadyBound).posts;
    if posts != [] {
      hide Granted;
      hide After;
      PostMoves(rows, ref, claim, digest, t);
      BoundRun(After(rows, CallOf(ref, claim, posts[0], digest), t), ref, claim, digest, t);
    }
  }

  /** The next post is granted, and the rest of the agenda is that of the phase it leads to. */
  lemma PostMoves(rows: Rows, ref: string, claim: string, digest: string, t: int)
    requires InHand(rows, ref, claim, t) && AgendaOf(rows[ref].state, AlreadyBound).posts != []
    ensures var posts := AgendaOf(rows[ref].state, AlreadyBound).posts;
      var call := CallOf(ref, claim, posts[0], digest);
      var next := After(rows, call, t);
      && Granted(rows, call, t) && InHand(next, ref, claim, t) && Rank(next[ref].state) == Rank(rows[ref].state) + 1
      && posts[1..] == AgendaOf(next[ref].state, AlreadyBound).posts
  {
  }
}
