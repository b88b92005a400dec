/**
 * Leases on staged commands. Of several engines that claim the same stored revision one wins. Until its
 * lease expires nobody else finishes or withdraws the command, exactly if no engine still remembers
 * an older claim of its own; and an acknowledgement keeps the lease exactly if it does not move the command to
 * another revision.
 */
module Claims {
  import opened Options
  import opened Commands
  import opened Protocol
  import opened ProtocolSafety
  import opened Delivery
  import opened KeyChange
  import QueueSteps

  // ---------------------------------------------------------------------------
  // One claim survives
  // ---------------------------------------------------------------------------

  predicate IsClaim(a: Action, op: Id) {
    a.Edit? && op in a.edits && a.edits[op].TakeClaim?
  }

  /** Claim passes over op, each by another engine. */
  predicate ClaimRun(actions: seq<Action>, op: Id) {
    actions != [] ==>
      IsClaim(actions[0], op) && ClaimRun(actions[1..], op) && actions[0].e !in Claimants(actions[1..])
  }

  function Claimants(actions: seq<Action>): set<nat> {
    if actions == [] then {}
    else (if actions[0].Edit? then {actions[0].e} else {}) + Claimants(actions[1..])
  }

  ghost predicate Sees(w: World, e: nat, op: Id, c: Command) {
    e in w.engines && op in w.engines[e].seen && w.engines[e].seen[op] == c
  }

  /** Whoever comes second loses: the stored winner stays, and the loser learns it. */
  lemma LoserAdoptsWinner(w: World, a: Action, op: Id, c: Command, won: Command)
    requires Enabled(w, a) && IsClaim(a, op) && Sees(w, a.e, op, c) && op in w.stored && w.stored[op] == won != c
    ensures var v := Next(w, a);
            && op in v.stored && v.stored[op] == won && Sees(v, a.e, op, won)
            && forall e, d | e != a.e :: Sees(v, e, op, d) == Sees(w, e, op, d)
  {
  }

  lemma {:induction false} LosersAdoptWinner(w: World, actions: seq<Action>, op: Id, c: Command, won: Command)
    requires Runs(w, actions) && ClaimRun(actions, op) && op in w.stored && w.stored[op] == won != c
    requires forall e | e in Claimants(actions) :: Sees(w, e, op, c)
    ensures var v := After(w, actions);
            && op in v.stored && v.stored[op] == won
            && (forall e | e in Claimants(actions) :: Sees(v, e, op, won))
            && (forall e | e !in Claimants(actions) && Sees(w, e, op, won) :: Sees(v, e, op, won))
    decreases |actions|
  {
    if actions != [] {
      LoserAdoptsWinner(w, actions[0], op, c, won);
      LosersAdoptWinner(Next(w, actions[0]), actions[1..], op, c, won);
    }
  }

  /** The first claim against the stored copy wins. */
  lemma FirstWins(w: World, a: Action, op: Id, c: Command)
    requires Enabled(w, a) && IsClaim(a, op) && Sees(w, a.e, op, c) && op in w.stored && w.stored[op] == c
    ensures var v := Next(w, a);
            && op in v.stored && v.stored[op] == a.edits[op].Edit(c) && Sees(v, a.e, op, a.edits[op].Edit(c))
            && forall e, d | e != a.e :: Sees(v, e, op, d) == Sees(w, e, op, d)
  {
  }

  /** Neither finishing nor withdrawing under this claim is accepted from engine e. */
  ghost predicate Refused(w: World, e: nat, op: Id, claimId: Id) {
    !Enabled(w, Edit(e, map[op := Activate(claimId)])) && !Enabled(w, Cancel(e, op, claimId))
  }

  /** An engine that sees the winner is refused everything under another claim. */
  lemma OthersAreRefused(v: World, e: nat, op: Id, won: Command, claimId: Id)
    requires Sees(v, e, op, won) && won.claimId != Some(claimId)
    ensures Refused(v, e, op, claimId)
  {
    var edits := map[op := Activate(claimId)];
    assert op in edits && !edits[op].Applies(won);
  }

  function ClaimIdOf(a: Action, op: Id): Id
    requires IsClaim(a, op)
  {
    a.edits[op].claimId
  }

  /**
   * Several engines claim the same staged command from the same stored copy, in any order: exactly the first
   * claim survives, every claimant ends up seeing it, and so activating or cancelling under any
   * other claim is refused to all of them.
   */
  lemma OneClaimSurvives(w: World, actions: seq<Action>, op: Id, c: Command)
    requires Runs(w, actions) && actions != [] && ClaimRun(actions, op)
    requires op in w.stored && w.stored[op] == c && c.status == Some(Staged)
    requires forall e | e in Claimants(actions) :: Sees(w, e, op, c)
    requires c.claimId != Some(ClaimIdOf(actions[0], op))
    ensures var v := After(w, actions);
            op in v.stored && HeldBy(v.stored[op], ClaimIdOf(actions[0], op))
            && forall e | e in Claimants(actions) :: Sees(v, e, op, v.stored[op])
    ensures forall e, claimId | e in Claimants(actions) && claimId != ClaimIdOf(actions[0], op) ::
              Refused(After(w, actions), e, op, claimId)
  {
    ClaimantsAgree(w, actions, op, c);
    var v := After(w, actions);
    forall e, claimId | e in Claimants(actions) && claimId != ClaimIdOf(actions[0], op)
      ensures Refused(v, e, op, claimId)
    {
      OthersAreRefused(v, e, op, v.stored[op], claimId);
    }
  }

  lemma ClaimantsAgree(w: World, actions: seq<Action>, op: Id, c: Command)
    requires Runs(w, actions) && actions != [] && ClaimRun(actions, op)
    requires op in w.stored && w.stored[op] == c && c.status == Some(Staged)
    requires forall e | e in Claimants(actions) :: Sees(w, e, op, c)
    requires c.claimId != Some(actions[0].edits[op].claimId)
    ensures var v := After(w, actions);
            var won := actions[0].edits[op].Edit(c);
            && op in v.stored && v.stored[op] == won && HeldBy(won, actions[0].edits[op].claimId)
            && won.claimId == Some(actions[0].edits[op].claimId)
            && (forall e | e in Claimants(actions) :: Sees(v, e, op, won))
  {
    FirstWins(w, actions[0], op, c);
    LosersAdoptWinner(Next(w, actions[0]), actions[1..], op, c, actions[0].edits[op].Edit(c));
  }

  // ---------------------------------------------------------------------------
  // Until the lease expires
  // ---------------------------------------------------------------------------

  /** What an engine dispatched was not staged. */
  ghost predicate InflightNotStaged(w: World) {
    forall e | e in w.engines && w.engines[e].inflight.Some? :: w.engines[e].inflight.value.status != Some(Staged)
  }

  lemma InflightStaysNotStaged(w: World, a: Action)
    requires Enabled(w, a) && InflightNotStaged(w)
    ensures InflightNotStaged(Next(w, a))
  {
  }

  /** In every reachable state: a staged command is never handed to the server. */
  lemma {:induction false} NothingStagedIsSent(w: World, actions: seq<Action>)
    requires InflightNotStaged(w) && Runs(w, actions)
    ensures InflightNotStaged(After(w, actions))
    decreases |actions|
  {
    if actions != [] {
      InflightStaysNotStaged(w, actions[0]);
      NothingStagedIsSent(Next(w, actions[0]), actions[1..]);
    }
  }

  /**
   * What a run must not do to a lease: claim after its expiry, let the holder finish or withdraw the
   * command, clear the account, or acknowledge a predecessor at another revision than the command names.
   */
  ghost predicate RespectsLease(w: World, a: Action, op: Id, claimId: Id, expiresAt: Time) {
    && (a.Edit? && op in a.edits ==>
          && (a.edits[op].TakeClaim? ==> a.edits[op].now < expiresAt)
          && a.edits[op] != Activate(claimId)
          && !(a.edits[op].ProjectionFailed? && a.edits[op].holder == Some(claimId)))
    && !(a.Cancel? && a.op == op && a.claimId == claimId)
    && (a.Clear? && a.e in w.engines ==> op !in w.engines[a.e].seen)
    && !a.ClearEverything?
    && (a.Ack? && Enabled(w, a) ==> !MovesLeased(w, a, op))
  }

  /** The acknowledgement chains this command and lands on another revision than it names. */
  ghost predicate MovesLeased(w: World, a: Action, op: Id)
    requires a.Ack? && Enabled(w, a)
  {
    && a.chained == Some(op) && op in w.stored
    && w.stored[op].baseVersion != w.server.memory[Key(w.engines[a.e].inflight.value)].outcome.version
  }

  /** No engine holds the command under another claim in its memory. */
  ghost predicate NoRivals(w: World, op: Id, claimId: Id) {
    forall e, k | e in w.engines && op in w.engines[e].seen && HeldBy(w.engines[e].seen[op], k) :: k == claimId
  }

  ghost predicate RespectfulRun(w: World, actions: seq<Action>, op: Id, claimId: Id, expiresAt: Time)
    requires Runs(w, actions)
    decreases |actions|
  {
    actions != [] ==>
      && RespectsLease(w, actions[0], op, claimId, expiresAt)
      && RespectfulRun(Next(w, actions[0]), actions[1..], op, claimId, expiresAt)
  }

  ghost predicate Leased(w: World, op: Id, d: Command, claimId: Id, expiresAt: Time) {
    op in w.stored && w.stored[op] == d && HeldBy(d, claimId) && d.claimExpiresAt == Some(expiresAt)
  }

  lemma NotApplicable(edit: LocalEdit, d: Command, claimId: Id, expiresAt: Time)
    requires HeldBy(d, claimId) && d.claimExpiresAt == Some(expiresAt)
    requires edit.TakeClaim? ==> edit.now < expiresAt
    requires edit != Activate(claimId) && !(edit.ProjectionFailed? && edit.holder == Some(claimId))
    ensures !edit.Applies(d)
  {
  }

  lemma EditLeavesLease(w: World, a: Action, op: Id, d: Command, claimId: Id, expiresAt: Time)
    requires Enabled(w, a) && a.Edit? && Leased(w, op, d, claimId, expiresAt)
    requires RespectsLease(w, a, op, claimId, expiresAt)
    ensures op in Next(w, a).stored && Next(w, a).stored[op] == d
  {
    if op in a.edits {
      NotApplicable(a.edits[op], d, claimId, expiresAt);
    }
  }

  lemma AckLeavesLease(w: World, a: Action, op: Id, d: Command, claimId: Id, expiresAt: Time)
    requires EngineInv(w) && InflightNotStaged(w)
    requires Enabled(w, a) && a.Ack? && Leased(w, op, d, claimId, expiresAt)
    requires RespectsLease(w, a, op, claimId, expiresAt)
    ensures op in Next(w, a).stored && Next(w, a).stored[op] == d
  {
    assert Holds(w, w.engines[a.e]);
  }

  /** A failed dispatch rewrites only what was dispatchable. */
  lemma RewriteLeavesLease(w: World, e: nat, op: Id, d: Command, claimId: Id, expiresAt: Time, r: Command)
    requires e in w.engines && Leased(w, op, d, claimId, expiresAt)
    requires OpId(r) in w.engines[e].seen && w.engines[e].seen[OpId(r)].status != Some(Staged)
    ensures op in QueueSteps.Swap(w.stored, w.engines[e].seen, map[OpId(r) := r])
    ensures QueueSteps.Swap(w.stored, w.engines[e].seen, map[OpId(r) := r])[op] == d
  {
  }

  lemma FailLeavesLease(w: World, a: Action, op: Id, d: Command, claimId: Id, expiresAt: Time)
    requires InflightNotStaged(w) && Enabled(w, a) && a.Fail? && Leased(w, op, d, claimId, expiresAt)
    ensures op in StoredBy(w, a) && StoredBy(w, a)[op] == d
  {
    if a.attached {
      var c := w.engines[a.e].inflight.value;
      FailureUsesEffort(c, a.reply, a.current, a.now, a.freshKey, a.freshCopy);
      RewriteLeavesLease(w, a.e, op, d, claimId, expiresAt, FailedCopy(w, a));
    }
  }

  lemma MisfireLeavesLease(w: World, a: Action, op: Id, d: Command, claimId: Id, expiresAt: Time)
    requires Enabled(w, a) && a.Misfire? && Leased(w, op, d, claimId, expiresAt)
    ensures op in StoredBy(w, a) && StoredBy(w, a)[op] == d
  {
    var r := RewrittenBy(w, a).value;
    assert OpId(r) == a.op;
    RewriteLeavesLease(w, a.e, op, d, claimId, expiresAt, r);
  }

  lemma QueueingLeavesLease(w: World, a: Action, op: Id, d: Command, claimId: Id, expiresAt: Time)
    requires Books(w) && Enabled(w, a) && !Persists(a) && Leased(w, op, d, claimId, expiresAt)
    ensures op in Next(w, a).stored && Next(w, a).stored[op] == d
  {
  }

  lemma RemovalLeavesLease(w: World, a: Action, op: Id, d: Command, claimId: Id, expiresAt: Time)
    requires Enabled(w, a) && (a.Cancel? || a.Clear? || a.ClearEverything? || a.Restart?)
    requires Leased(w, op, d, claimId, expiresAt) && RespectsLease(w, a, op, claimId, expiresAt)
    requires NoRivals(w, op, claimId)
    ensures op in StoredBy(w, a) && StoredBy(w, a)[op] == d
  {
  }

  /** No edit, cancellation, failure, acknowledgement or restart by anyone else touches a leased command. */
  lemma StepLeavesLease(w: World, a: Action, op: Id, d: Command, claimId: Id, expiresAt: Time)
    requires Inv(w) && InflightNotStaged(w) && NoRivals(w, op, claimId)
    requires Enabled(w, a) && Leased(w, op, d, claimId, expiresAt)
    requires RespectsLease(w, a, op, claimId, expiresAt)
    ensures Leased(Next(w, a), op, d, claimId, expiresAt)
  {
    if !Persists(a) {
      QueueingLeavesLease(w, a, op, d, claimId, expiresAt);
    } else if a.Edit? {
      EditLeavesLease(w, a, op, d, claimId, expiresAt);
    } else if a.Ack? {
      AckLeavesLease(w, a, op, d, claimId, expiresAt);
    } else if a.Fail? {
      FailLeavesLease(w, a, op, d, claimId, expiresAt);
    } else if a.Misfire? {
      MisfireLeavesLease(w, a, op, d, claimId, expiresAt);
    } else {
      RemovalLeavesLease(w, a, op, d, claimId, expiresAt);
    }
  }

  /** Whoever adopts the store learns of the claim. */
  lemma StepAddsNoRival(w: World, a: Action, op: Id, d: Command, claimId: Id, expiresAt: Time)
    requires Enabled(w, a) && NoRivals(w, op, claimId) && Leased(Next(w, a), op, d, claimId, expiresAt)
    ensures NoRivals(Next(w, a), op, claimId)
  {
    hide Next, Enabled;
    forall e | e in Next(w, a).engines
      ensures Next(w, a).engines[e].seen == Next(w, a).stored
              || (e in w.engines && Next(w, a).engines[e].seen == w.engines[e].seen)
    {
      AdoptsOrKeeps(w, a, e);
    }
  }

  /**
   * Through any run that respects the lease, whatever else any engine does, the stored command stays exactly
   * as its holder claimed it and no engine comes to hold it under another claim.
   */
  lemma {:induction false} LeaseHolds(
    w: World, actions: seq<Action>, op: Id, d: Command, claimId: Id, expiresAt: Time)
    requires Inv(w) && InflightNotStaged(w) && Runs(w, actions) && NoRivals(w, op, claimId)
    requires Leased(w, op, d, claimId, expiresAt) && RespectfulRun(w, actions, op, claimId, expiresAt)
    ensures Leased(After(w, actions), op, d, claimId, expiresAt) && NoRivals(After(w, actions), op, claimId)
    decreases |actions|
  {
    if actions != [] {
      StepLeavesLease(w, actions[0], op, d, claimId, expiresAt);
      StepAddsNoRival(w, actions[0], op, d, claimId, expiresAt);
      StepKeepsInv(w, actions[0]);
      InflightStaysNotStaged(w, actions[0]);
      hide Enabled, Next, Inv, Leased, NoRivals, InflightNotStaged, RespectsLease;
      LeaseHolds(Next(w, actions[0]), actions[1..], op, d, claimId, expiresAt);
    }
  }

  /** Without rivals every other claim is refused, to every engine. */
  lemma OthersRefused(w: World, op: Id, claimId: Id)
    requires NoRivals(w, op, claimId)
    ensures forall e, k | k != claimId :: Refused(w, e, op, k)
  {
    forall e, k | k != claimId ensures Refused(w, e, op, k) {
      RivalIsRefused(w, e, op, claimId, k);
    }
  }

  lemma RivalIsRefused(w: World, e: nat, op: Id, claimId: Id, k: Id)
    requires NoRivals(w, op, claimId) && k != claimId
    ensures Refused(w, e, op, k)
  {
    var edits := map[op := Activate(k)];
    assert op in edits;
    if e in w.engines && op in w.engines[e].seen {
      assert !HeldBy(w.engines[e].seen[op], k);
    }
  }

  /** And they stay refused through every run that respects the lease. */
  lemma OthersStayRefused(
    w: World, actions: seq<Action>, op: Id, d: Command, claimId: Id, expiresAt: Time)
    requires Inv(w) && InflightNotStaged(w) && Runs(w, actions) && NoRivals(w, op, claimId)
    requires Leased(w, op, d, claimId, expiresAt) && RespectfulRun(w, actions, op, claimId, expiresAt)
    ensures forall e, k | k != claimId :: Refused(After(w, actions), e, op, k)
  {
    LeaseHolds(w, actions, op, d, claimId, expiresAt);
    OthersRefused(After(w, actions), op, claimId);
  }

  /** A rival withdraws the command, whatever the holder does. */
  lemma RivalWithdraws(w: World, e: nat, op: Id, d: Command, claimId: Id, expiresAt: Time, k: Id)
    requires Leased(w, op, d, claimId, expiresAt) && k != claimId
    requires e in w.engines && op in w.engines[e].seen && HeldBy(w.engines[e].seen[op], k)
    ensures var actions := [Cancel(e, op, k)];
            && Runs(w, actions) && RespectfulRun(w, actions, op, claimId, expiresAt)
            && !Leased(After(w, actions), op, d, claimId, expiresAt)
  {
    var a := Cancel(e, op, k);
    CancelRemovesWhateverIsStored(w, e, op, k);
    assert [a][1..] == [] && Runs(Next(w, a), [a][1..]);
    assert RespectfulRun(Next(w, a), [a][1..], op, claimId, expiresAt);
  }

  /**
   * The exact condition: a lease survives every run that respects it if and only if no engine
   * remembers another claim on the command.
   */
  lemma LeaseIsSafeIff(w: World, op: Id, d: Command, claimId: Id, expiresAt: Time)
    requires Inv(w) && InflightNotStaged(w) && Leased(w, op, d, claimId, expiresAt)
    ensures NoRivals(w, op, claimId)
       <==> forall actions | Runs(w, actions) && RespectfulRun(w, actions, op, claimId, expiresAt) ::
              Leased(After(w, actions), op, d, claimId, expiresAt)
  {
    hide Inv, InflightNotStaged, Leased, Runs, After, RespectfulRun, Enabled;
    if NoRivals(w, op, claimId) {
      hide NoRivals;
      forall actions | Runs(w, actions) && RespectfulRun(w, actions, op, claimId, expiresAt)
        ensures Leased(After(w, actions), op, d, claimId, expiresAt)
      {
        LeaseHolds(w, actions, op, d, claimId, expiresAt);
      }
    } else {
      var e, k :| e in w.engines && op in w.engines[e].seen && HeldBy(w.engines[e].seen[op], k) && k != claimId;
      RivalWithdraws(w, e, op, d, claimId, expiresAt, k);
    }
  }

  /** Nobody but engine e remembers a claim on the command. */
  ghost predicate UnclaimedByOthers(w: World, e: nat, op: Id) {
    forall f | f in w.engines && f != e && op in w.engines[f].seen ::
      !(w.engines[f].seen[op].status == Some(Staged) && w.engines[f].seen[op].claimId.Some?)
  }

  /**
   * The first claim against the stored copy wins for good: in whatever order other claim passes and any other
   * steps follow, until its expiry the command stays under it and every other claim is refused to everybody.
   */
  lemma FirstClaimHolds(w: World, a: Action, more: seq<Action>, op: Id, c: Command)
    requires Inv(w) && InflightNotStaged(w) && Enabled(w, a) && IsClaim(a, op)
    requires Sees(w, a.e, op, c) && UnclaimedByOthers(w, a.e, op)
    requires op in w.stored && w.stored[op] == c && c.status == Some(Staged)
    requires Runs(Next(w, a), more)
    requires RespectfulRun(Next(w, a), more, op, ClaimIdOf(a, op), a.edits[op].expiresAt)
    ensures var v := After(Next(w, a), more);
            && Leased(v, op, a.edits[op].Edit(c), ClaimIdOf(a, op), a.edits[op].expiresAt)
            && forall e, k | k != ClaimIdOf(a, op) :: Refused(v, e, op, k)
  {
    hide Inv, Next, Enabled, NoRivals, Refused, InflightNotStaged, Runs, RespectfulRun, Leased, UnclaimedByOthers;
    FirstClaimStep(w, a, op, c);
    var d, u := a.edits[op].Edit(c), Next(w, a);
    LeaseHolds(u, more, op, d, ClaimIdOf(a, op), a.edits[op].expiresAt);
    OthersStayRefused(u, more, op, d, ClaimIdOf(a, op), a.edits[op].expiresAt);
  }

  lemma FirstClaimStep(w: World, a: Action, op: Id, c: Command)
    requires Inv(w) && InflightNotStaged(w) && Enabled(w, a) && IsClaim(a, op)
    requires Sees(w, a.e, op, c) && UnclaimedByOthers(w, a.e, op)
    requires op in w.stored && w.stored[op] == c && c.status == Some(Staged)
    ensures var u := Next(w, a);
            && Inv(u) && InflightNotStaged(u) && NoRivals(u, op, ClaimIdOf(a, op))
            && Leased(u, op, a.edits[op].Edit(c), ClaimIdOf(a, op), a.edits[op].expiresAt)
  {
    hide Inv, Next, Enabled, NoRivals, InflightNotStaged, UnclaimedByOthers, Sees;
    StepKeepsInv(w, a);
    InflightStaysNotStaged(w, a);
    WinnerHasNoRivals(w, a, op, c);
    FirstWins(w, a, op, c);
  }

  lemma WinnerHasNoRivals(w: World, a: Action, op: Id, c: Command)
    requires Enabled(w, a) && IsClaim(a, op) && Sees(w, a.e, op, c) && UnclaimedByOthers(w, a.e, op)
    requires op in w.stored && w.stored[op] == c && c.status == Some(Staged)
    ensures NoRivals(Next(w, a), op, ClaimIdOf(a, op))
  {
    FirstWins(w, a, op, c);
    forall e | e in Next(w, a).engines && e != a.e
      ensures e in w.engines && Next(w, a).engines[e] == w.engines[e]
    {
    }
  }

  /** Claim passes concern the claiming engines only. */
  lemma {:induction false} ClaimsLeaveOthers(w: World, actions: seq<Action>, op: Id, e: nat)
    requires Runs(w, actions) && ClaimRun(actions, op) && e !in Claimants(actions)
    ensures e in After(w, actions).engines ==>
              e in w.engines && After(w, actions).engines[e] == w.engines[e]
    decreases |actions|
  {
    if actions != [] {
      EditLeavesOthers(w, actions[0], e);
      hide Next, Enabled;
      ClaimsLeaveOthers(Next(w, actions[0]), actions[1..], op, e);
    }
  }

  lemma EditLeavesOthers(w: World, a: Action, e: nat)
    requires Enabled(w, a) && a.Edit? && e != a.e
    ensures e in Next(w, a).engines ==> e in w.engines && Next(w, a).engines[e] == w.engines[e]
  {
  }

  /** No engine outside this set remembers the command under another claim. */
  ghost predicate NoOtherRivals(w: World, claimants: set<nat>, op: Id, claimId: Id) {
    forall e, k | e in w.engines && e !in claimants && op in w.engines[e].seen && HeldBy(w.engines[e].seen[op], k) ::
      k == claimId
  }

  lemma NoRivalsLeft(w: World, v: World, claimants: set<nat>, op: Id, won: Command, claimId: Id)
    requires NoOtherRivals(w, claimants, op, claimId) && won.claimId == Some(claimId)
    requires forall e | e in claimants :: Sees(v, e, op, won)
    requires forall e | e in v.engines && e !in claimants :: e in w.engines && v.engines[e] == w.engines[e]
    ensures NoRivals(v, op, claimId)
  {
  }

  lemma ClaimantsHaveNoRivals(w: World, claims: seq<Action>, op: Id, c: Command)
    requires Runs(w, claims) && claims != [] && ClaimRun(claims, op)
    requires op in w.stored && w.stored[op] == c && c.status == Some(Staged)
    requires forall e | e in Claimants(claims) :: Sees(w, e, op, c)
    requires c.claimId != Some(ClaimIdOf(claims[0], op))
    requires NoOtherRivals(w, Claimants(claims), op, ClaimIdOf(claims[0], op))
    ensures NoRivals(After(w, claims), op, ClaimIdOf(claims[0], op))
  {
    hide Runs, After, Claimants, Sees, NoOtherRivals, NoRivals, HeldBy;
    ClaimantsAgree(w, claims, op, c);
    var v := After(w, claims);
    forall e | e in v.engines && e !in Claimants(claims) ensures e in w.engines && v.engines[e] == w.engines[e] {
      ClaimsLeaveOthers(w, claims, op, e);
    }
    NoRivalsLeft(w, v, Claimants(claims), op, claims[0].edits[op].Edit(c), ClaimIdOf(claims[0], op));
  }

  lemma WinnerIsLeased(w: World, claims: seq<Action>, op: Id, c: Command)
    requires Runs(w, claims) && claims != [] && ClaimRun(claims, op)
    requires op in w.stored && w.stored[op] == c && c.status == Some(Staged)
    requires forall e | e in Claimants(claims) :: Sees(w, e, op, c)
    requires c.claimId != Some(ClaimIdOf(claims[0], op))
    ensures Leased(After(w, claims), op, claims[0].edits[op].Edit(c), ClaimIdOf(claims[0], op),
                   claims[0].edits[op].expiresAt)
  {
    ClaimantsAgree(w, claims, op, c);
  }

  /**
   * Several engines claim the same staged command from the same stored copy, and then anything else happens
   * that respects the lease: the first claim stays, and finishing or withdrawing under any other claim
   * is refused to every engine until the lease expires.
   */
  lemma ClaimHoldsForGood(w: World, claims: seq<Action>, more: seq<Action>, op: Id, c: Command)
    requires Inv(w) && InflightNotStaged(w) && Runs(w, claims) && claims != [] && ClaimRun(claims, op)
    requires op in w.stored && w.stored[op] == c && c.status == Some(Staged)
    requires forall e | e in Claimants(claims) :: Sees(w, e, op, c)
    requires c.claimId != Some(ClaimIdOf(claims[0], op))
    requires NoOtherRivals(w, Claimants(claims), op, ClaimIdOf(claims[0], op))
    requires Runs(After(w, claims), more)
    requires RespectfulRun(After(w, claims), more, op, ClaimIdOf(claims[0], op), claims[0].edits[op].expiresAt)
    ensures var v, id := After(After(w, claims), more), ClaimIdOf(claims[0], op);
            && Leased(v, op, claims[0].edits[op].Edit(c), id, claims[0].edits[op].expiresAt)
            && forall e, k | k != id :: Refused(v, e, op, k)
  {
    hide Inv, Runs, RespectfulRun, Leased, NoRivals, NoOtherRivals, Refused, InflightNotStaged, Sees, Claimants, After;
    var d, id, expiresAt := claims[0].edits[op].Edit(c), ClaimIdOf(claims[0], op), claims[0].edits[op].expiresAt;
    RunKeepsInv(w, claims);
    NothingStagedIsSent(w, claims);
    WinnerIsLeased(w, claims, op, c);
    ClaimantsHaveNoRivals(w, claims, op, c);
    LeaseHolds(After(w, claims), more, op, d, id, expiresAt);
    OthersStayRefused(After(w, claims), more, op, d, id, expiresAt);
  }

  // ---------------------------------------------------------------------------
  // What the answers are worth
  // ---------------------------------------------------------------------------

  lemma EditOne(w: World, e: nat, op: Id, edit: LocalEdit)
    requires e in w.engines && op in w.engines[e].seen && edit.Applies(w.engines[e].seen[op])
    ensures var a := Edit(e, map[op := edit]);
            && Enabled(w, a)
            && Next(w, a).stored
               == QueueSteps.Swap(w.stored, w.engines[e].seen, map[op := edit.Edit(w.engines[e].seen[op])])
            && e in Next(w, a).engines && Next(w, a).engines[e].seen == Next(w, a).stored
            && forall f | f != e && f in w.engines :: f in Next(w, a).engines && Next(w, a).engines[f] == w.engines[f]
  {
    var edits := map[op := edit];
    assert edits.Keys == {op};
    assert LocalChanges(w.engines[e].seen, edits) == map[op := edit.Edit(w.engines[e].seen[op])];
  }

  /** activate answers true for any holder in memory, but takes effect exactly if the stored copy is that holder's. */
  lemma ActivateTakesEffectIff(w: World, e: nat, op: Id, claimId: Id)
    requires e in w.engines && op in w.engines[e].seen && HeldBy(w.engines[e].seen[op], claimId)
    requires op in w.stored && w.stored[op].status == Some(Staged)
    ensures var a := Edit(e, map[op := Activate(claimId)]);
            && Enabled(w, a) && op in Next(w, a).stored
            && (Next(w, a).stored[op].status == Some(Pending) <==> w.stored[op] == w.engines[e].seen[op])
            && (w.stored[op] != w.engines[e].seen[op] ==> Next(w, a).stored[op] == w.stored[op])
  {
    EditOne(w, e, op, Activate(claimId));
  }

  ghost predicate Withdraws(w: World, e: nat, op: Id, claimId: Id) {
    && Enabled(w, Cancel(e, op, claimId))
    && op !in Next(w, Cancel(e, op, claimId)).stored
  }

  /** cancel removes the stored command whoever holds it by then. */
  lemma CancelRemovesWhateverIsStored(w: World, e: nat, op: Id, claimId: Id)
    requires e in w.engines && op in w.engines[e].seen && HeldBy(w.engines[e].seen[op], claimId)
    ensures Withdraws(w, e, op, claimId)
  {
  }

  /** Some run leads from w to v. */
  ghost predicate Reaches(w: World, v: World) {
    exists actions :: Runs(w, actions) && After(w, actions) == v
  }

  lemma AndThen(w: World, u: World, a: Action)
    requires Reaches(w, u) && Enabled(u, a)
    ensures Reaches(w, Next(u, a))
  {
    var before :| Runs(w, before) && After(w, before) == u;
    assert [a][1..] == [] && Runs(Next(u, a), [a][1..]);
    RunsConcat(w, before, [a]);
    assert Runs(w, before + [a]);
  }

  lemma AndEdited(w: World, u: World, e: nat, op: Id, edit: LocalEdit) returns (v: World)
    requires Reaches(w, u) && op in u.stored && Sees(u, e, op, u.stored[op]) && edit.Applies(u.stored[op])
    ensures Reaches(w, v) && op in v.stored && v.stored[op] == edit.Edit(u.stored[op])
    ensures Sees(v, e, op, v.stored[op])
    ensures forall f | f != e && f in u.engines :: f in v.engines && v.engines[f] == u.engines[f]
  {
    hide Reaches;
    EditOne(u, e, op, edit);
    AndThen(w, u, Edit(e, map[op := edit]));
    v := Next(u, Edit(e, map[op := edit]));
  }

  lemma AndRestarted(w: World, u: World, f: nat) returns (v: World)
    requires Reaches(w, u)
    ensures Reaches(w, v) && v.stored == u.stored && f in v.engines && v.engines[f].seen == u.stored
    ensures forall e | e != f && e in u.engines :: e in v.engines && v.engines[e] == u.engines[e]
  {
    AndThen(w, u, Restart(f));
    v := Next(u, Restart(f));
    assert u.stored - {} == u.stored;
  }

  lemma NothingYet(w: World)
    ensures Reaches(w, w)
  {
    assert Runs(w, []) && After(w, []) == w;
  }

  /** One engine claims a free command, another one learns of it. */
  lemma ClaimedAndSeen(w: World, e: nat, f: nat, op: Id, k1: Id, now: Time, lease: nat) returns (v: World)
    requires e != f && op in w.stored && Sees(w, e, op, w.stored[op])
    requires w.stored[op].status == Some(Staged) && w.stored[op].claimId == None
    ensures Reaches(w, v) && op in v.stored && HeldBy(v.stored[op], k1)
    ensures v.stored[op].claimExpiresAt == Some(now + lease)
    ensures Sees(v, e, op, v.stored[op]) && Sees(v, f, op, v.stored[op])
  {
    hide Reaches;
    NothingYet(w);
    v := AndEdited(w, w, e, op, TakeClaim(k1, now + lease, now));
    v := AndRestarted(w, v, f);
  }

  /** From every state in which an engine sees a free staged command, another can come to hold it. */
  lemma TakenOver(w: World, e: nat, f: nat, op: Id, k1: Id, k2: Id, now: Time, lease: nat) returns (v: World)
    requires e != f && op in w.stored && Sees(w, e, op, w.stored[op])
    requires w.stored[op].status == Some(Staged) && w.stored[op].claimId == None
    ensures Reaches(w, v) && op in v.stored && HeldBy(v.stored[op], k2)
    ensures v.stored[op].claimExpiresAt == Some(now + lease + lease)
    ensures e in v.engines && op in v.engines[e].seen && HeldBy(v.engines[e].seen[op], k1)
  {
    hide Reaches;
    v := ClaimedAndSeen(w, e, f, op, k1, now, lease);
    v := AndEdited(w, v, f, op, TakeClaim(k2, now + lease + lease, now + lease));
  }

  /** So a holder whose lease has expired can withdraw a command that another engine holds by then. */
  lemma ExpiredHolderWithdraws(w: World, e: nat, f: nat, op: Id, k1: Id, k2: Id, now: Time, lease: nat)
    returns (v: World)
    requires e != f && op in w.stored && Sees(w, e, op, w.stored[op])
    requires w.stored[op].status == Some(Staged) && w.stored[op].claimId == None
    ensures Reaches(w, v) && op in v.stored && HeldBy(v.stored[op], k2)
    ensures v.stored[op].claimExpiresAt == Some(now + lease + lease)
    ensures Withdraws(v, e, op, k1)
  {
    v := TakenOver(w, e, f, op, k1, k2, now, lease);
    CancelRemovesWhateverIsStored(v, e, op, k1);
  }

  /**
   * An acknowledgement anywhere keeps a lease exactly if it does not chain the command at another revision than
   * it names; if it does, a command without ciphertext becomes pending without its projection.
   */
  lemma AckKeepsLeaseIff(w: World, a: Action, op: Id, d: Command, claimId: Id, expiresAt: Time)
    requires EngineInv(w) && InflightNotStaged(w)
    requires Enabled(w, a) && a.Ack? && Leased(w, op, d, claimId, expiresAt)
    ensures Leased(Next(w, a), op, d, claimId, expiresAt) <==> !MovesLeased(w, a, op)
    ensures MovesLeased(w, a, op) ==>
              op in Next(w, a).stored
              && Next(w, a).stored[op].status == Some(if CarriesSealedCiphertext(d) then Conflicted else Pending)
  {
    assert Holds(w, w.engines[a.e]);
  }
}
