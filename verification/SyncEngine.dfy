/**
 * One engine's memory and the storage document it shares with others. Each method is one
 * atomic step: a local change followed by its persist pass.
 */
module SyncEngine {
  import opened Options
  import opened Commands
  import opened QueueMerge
  import opened MergeLaws
  import opened QueueSteps
  import opened Refinement
  import opened DrainPass

  type Document = map<AccountId, seq<Command>>

  function QueueOf(d: Document, account: AccountId): seq<Command> {
    if account in d then d[account] else []
  }

  /** The document with one account's queue replaced; an account without commands has no entry. */
  function WithQueue(d: Document, account: AccountId, q: seq<Command>): Document {
    if q == [] then d - {account} else d[account := q]
  }

  type Persisted = map<AccountId, map<Id, Command>>

  function KnownOf(p: Persisted, account: AccountId): map<Id, Command> {
    if account in p then p[account] else map[]
  }

  /** A queue is sorted, holds each operation once, remembers as persisted exactly what it holds, and is not empty. */
  ghost predicate Sound(queues: Document, persisted: Persisted, account: AccountId) {
    var q := QueueOf(queues, account);
    Unique(q) && Sorted(q) && Ids(q) == KnownOf(persisted, account).Keys && (account in queues ==> q != [])
  }

  ghost predicate ClosedAt(queues: Document, persisted: Persisted, document: Document, account: AccountId) {
    && KnownOf(persisted, account) == MapOf(QueueOf(queues, account))
    && QueueOf(document, account) == QueueOf(queues, account)
  }

  ghost predicate AllClosed(queues: Document, persisted: Persisted, document: Document) {
    forall a :: ClosedAt(queues, persisted, document, a)
  }

  /** No account but this one differs. */
  ghost predicate OnlyDiffersAt(
    queues: Document, persisted: Persisted, queues': Document, persisted': Persisted, account: AccountId)
  {
    forall a | a != account ::
      QueueOf(queues', a) == QueueOf(queues, a) && KnownOf(persisted', a) == KnownOf(persisted, a)
  }

  class SyncStorage {
    var document: Document

    ghost predicate Valid()
      reads this
    {
      forall a | a in document :: Unique(document[a]) && Sorted(document[a]) && document[a] != []
    }

    constructor ()
      ensures Valid() && document == map[]
    {
      document := map[];
    }

    /** The end of every updater: an account without commands keeps no entry. */
    method Replace(account: AccountId, q: seq<Command>)
      requires Valid() && Unique(q) && Sorted(q)
      modifies this
      ensures Valid() && document == WithQueue(old(document), account, q)
    {
      document := WithQueue(document, account, q);
    }
  }

  class ItemSyncEngine {
    const storage: SyncStorage
    const hasReconciler: bool
    var queues: Document
    var persisted: Persisted
    var draining: bool
    var drainRequested: bool

    ghost predicate Valid()
      reads this
    {
      forall a :: Sound(queues, persisted, a)
    }

    /** Valid up to a local change of one account's queue that is not persisted yet. */
    ghost predicate ValidExcept(account: AccountId)
      reads this
    {
      forall a | a != account :: Sound(queues, persisted, a)
    }

    /** The queue of this account is exactly what was last adopted from storage. */
    ghost predicate AtRest(account: AccountId)
      reads this
    {
      KnownOf(persisted, account) == MapOf(QueueOf(queues, account))
    }

    /** Memory of this account is what is stored, and no other account changed anywhere. */
    twostate predicate OnlyPersisted(account: AccountId)
      reads this, storage
    {
      && AtRest(account)
      && OnlyDiffersAt(old(queues), old(persisted), queues, persisted, account)
      && storage.document == WithQueue(old(storage.document), account, QueueOf(queues, account))
    }

    /** A drain is asked for exactly if the persist pass brought in commands beyond these; a request stays. */
    twostate predicate DrainAsked(account: AccountId, local: set<Id>)
      reads this
    {
      drainRequested <==> old(drainRequested) || !(Ids(QueueOf(queues, account)) <= local)
    }

    constructor (storage: SyncStorage, hasReconciler: bool)
      ensures Valid() && this.storage == storage && this.hasReconciler == hasReconciler
      ensures queues == map[] && persisted == map[] && !draining && !drainRequested
    {
      this.storage := storage;
      this.hasReconciler := hasReconciler;
      queues := map[];
      persisted := map[];
      draining, drainRequested := false, false;
    }

    /** The end of every persist pass: memory becomes what is stored. */
    method Adopt(account: AccountId, reconciled: seq<Command>)
      requires ValidExcept(account) && Unique(reconciled) && Sorted(reconciled)
      modifies this`queues, this`persisted
      ensures Valid() && AtRest(account) && QueueOf(queues, account) == reconciled
      ensures OnlyDiffersAt(old(queues), old(persisted), queues, persisted, account)
    {
      WithQueueIs(queues, account, reconciled);
      queues := WithQueue(queues, account, reconciled);
      persisted := persisted[account := MapOf(reconciled)];
      forall a ensures Sound(queues, persisted, a) {
        assert a != account ==> Sound(old(queues), old(persisted), a);
      }
    }

    /**
     * The persist pass: a three-way merge of what was last persisted, what is in memory and what is stored.
     * Returns the commands that another engine removed in the meantime.
     */
    method WriteQueue(account: AccountId) returns (elsewhere: seq<Command>)
      requires storage.Valid() && ValidExcept(account) && Unique(QueueOf(queues, account))
      modifies this`queues, this`persisted, this`drainRequested, storage
      ensures Valid() && storage.Valid() && AtRest(account)
      ensures OnlyDiffersAt(old(queues), old(persisted), queues, persisted, account)
      ensures var known, queue := old(KnownOf(persisted, account)), old(QueueOf(queues, account));
              var stored := old(QueueOf(storage.document, account));
              var next := Merge(known, queue, stored);
              && storage.document == WithQueue(old(storage.document), account, next)
              && QueueOf(queues, account) == next
              && elsewhere == RemovedElsewhere(known, queue, stored)
              && DrainAsked(account, Ids(queue))
    {
      var known, queue := KnownOf(persisted, account), QueueOf(queues, account);
      var next;
      next, elsewhere := Reconcile(known, queue, QueueOf(storage.document, account));
      FromListIs(queue);
      MergeIsCanonical(known, queue, QueueOf(storage.document, account));
      storage.Replace(account, next);
      drainRequested := drainRequested || !(Ids(next) <= Ids(queue));
      Adopt(account, next);
    }

    /** A local change of one queue followed by its persist pass. */
    method Save(account: AccountId, local: seq<Command>)
      requires Valid() && storage.Valid() && Unique(local)
      modifies this`queues, this`persisted, this`drainRequested, storage
      ensures Valid() && storage.Valid() && OnlyPersisted(account)
      ensures QueueOf(queues, account)
           == Merge(old(KnownOf(persisted, account)), local, old(QueueOf(storage.document, account)))
      ensures DrainAsked(account, Ids(local))
    {
      queues := WithQueue(queues, account, local);
      WithQueueIs(old(queues), account, local);
      forall a | a != account ensures Sound(queues, persisted, a) {
        assert Sound(old(queues), persisted, a);
      }
      var elsewhere := WriteQueue(account);
    }

    /** Puts d in the place of the held command with its operation id, and persists. */
    method EditHeld(account: AccountId, d: Command)
      requires Valid() && storage.Valid() && CanTakePlace(QueueOf(queues, account), d)
      modifies this`queues, this`persisted, this`drainRequested, storage
      ensures Valid() && storage.Valid() && OnlyPersisted(account)
      ensures var known, queue := old(KnownOf(persisted, account)), old(QueueOf(queues, account));
              var stored := old(QueueOf(storage.document, account));
              && QueueOf(queues, account) == Merge(known, Replaced(queue, d), stored)
              && (known == MapOf(queue) ==> QueueOf(queues, account) == SwapAll(stored, known, map[OpId(d) := d]))
              && DrainAsked(account, Ids(queue))
    {
      var queue := QueueOf(queues, account);
      assert Sound(queues, persisted, account);
      var i := Position(queue, OpId(d));
      EditedAt(queue, i, d);
      EditedIs(queue, map[OpId(d) := d]);
      if KnownOf(persisted, account) == MapOf(queue) {
        EditIsSwap(queue, map[OpId(d) := d], QueueOf(storage.document, account));
      }
      Save(account, queue[i := d]);
    }

    // -------------------------------------------------------------------------
    // Enqueueing
    // -------------------------------------------------------------------------

    /** Queues a prepared command unless its operation is already in memory. */
    method Push(d: Command) returns (added: bool)
      requires Valid() && storage.Valid()
      modifies this`queues, this`persisted, this`drainRequested, storage
      ensures Valid() && storage.Valid()
      ensures added == (OpId(d) !in old(Ids(QueueOf(queues, d.account))))
      ensures !added ==>
        && queues == old(queues) && persisted == old(persisted) && storage.document == old(storage.document)
        && drainRequested == old(drainRequested)
      ensures added ==>
        OnlyPersisted(d.account) && DrainAsked(d.account, old(Ids(QueueOf(queues, d.account))) + {OpId(d)})
      ensures var known, queue := old(KnownOf(persisted, d.account)), old(QueueOf(queues, d.account));
              var stored := old(QueueOf(storage.document, d.account));
              && (added ==> QueueOf(queues, d.account) == Merge(known, SortByTime(queue + [d]), stored))
              && (added && known == MapOf(queue) && OpId(d) !in Ids(stored) ==>
                    QueueOf(queues, d.account) == InsertByTime(stored, d))
    {
      var queue := QueueOf(queues, d.account);
      assert Sound(queues, persisted, d.account);
      added := OpId(d) !in Ids(queue);
      if added {
        SortAppended(queue, d);
        InsertContents(queue, d);
        if KnownOf(persisted, d.account) == MapOf(queue) && OpId(d) !in Ids(QueueOf(storage.document, d.account)) {
          EnqueueIsInsert(queue, d, QueueOf(storage.document, d.account));
        }
        Save(d.account, SortByTime(queue + [d]));
      }
    }

    /**
     * The durable half of enqueue: what the local projection is then run on, if anything is.
     * A command enqueued already conflicted or failed keeps that status.
     */
    method Enqueue(c: Command, optimistic: bool) returns (durable: Option<Command>)
      requires Valid() && storage.Valid()
      modifies this`queues, this`persisted, this`drainRequested, storage
      ensures Valid() && storage.Valid()
      ensures var d := Prepared(c, optimistic || hasReconciler);
              var known, queue := old(KnownOf(persisted, c.account)), old(QueueOf(queues, c.account));
              var stored := old(QueueOf(storage.document, c.account));
              if OpId(d) in Ids(queue) then
                && durable == None && queues == old(queues) && persisted == old(persisted)
                && storage.document == old(storage.document) && drainRequested == old(drainRequested)
              else
                && OnlyPersisted(c.account) && DrainAsked(c.account, Ids(queue) + {OpId(d)})
                && QueueOf(queues, c.account) == Merge(known, SortByTime(queue + [d]), stored)
                && durable == Get(MapOf(QueueOf(queues, c.account)), OpId(d))
      ensures var d := Prepared(c, optimistic || hasReconciler);
              OpId(d) !in old(Ids(QueueOf(queues, c.account)))
              && OpId(d) !in old(Ids(QueueOf(storage.document, c.account)))
              && old(AtRest(c.account)) ==>
                durable == Some(d)
                && QueueOf(storage.document, c.account) == InsertByTime(old(QueueOf(storage.document, c.account)), d)
    {
      var d := Prepared(c, optimistic || hasReconciler);
      ghost var stored := QueueOf(storage.document, c.account);
      var added := Push(d);
      WithQueueIs(old(storage.document), c.account, QueueOf(queues, c.account));
      durable := None;
      if added {
        durable := Get(MapOf(QueueOf(queues, c.account)), OpId(d));
        if OpId(d) !in Ids(stored) {
          InsertContents(stored, d);
        }
      }
    }

    /** Queues a command whose projection some context will claim later. */
    method Stage(c: Command, claim: Option<Claim>) returns (added: bool)
      requires Valid() && storage.Valid()
      modifies this`queues, this`persisted, this`drainRequested, storage
      ensures Valid() && storage.Valid()
      ensures added == (OpId(c) !in old(Ids(QueueOf(queues, c.account))))
      ensures !added ==>
        && queues == old(queues) && persisted == old(persisted) && storage.document == old(storage.document)
        && drainRequested == old(drainRequested)
      ensures added ==>
        && OnlyPersisted(c.account) && DrainAsked(c.account, old(Ids(QueueOf(queues, c.account))) + {OpId(c)})
        && QueueOf(queues, c.account)
           == Merge(old(KnownOf(persisted, c.account)),
                    SortByTime(old(QueueOf(queues, c.account)) + [StagedCopy(c, claim)]),
                    old(QueueOf(storage.document, c.account)))
    {
      added := Push(StagedCopy(c, claim));
    }

    // -------------------------------------------------------------------------
    // Local projections and leases
    // -------------------------------------------------------------------------

    /**
     * An edit through a reference taken before an await: Some if the queue still holds that very object, with
     * what the edit makes of it; None if a persist pass has put another copy in its place. Then the edit
     * is lost, but the persist pass that follows it happens anyway.
     */
    method EditReference(account: AccountId, d: Option<Command>)
      requires Valid() && storage.Valid() && (d.Some? ==> CanTakePlace(QueueOf(queues, account), d.value))
      modifies this`queues, this`persisted, this`drainRequested, storage
      ensures Valid() && storage.Valid() && OnlyPersisted(account)
      ensures DrainAsked(account, old(Ids(QueueOf(queues, account))))
      ensures EditPersisted(old(KnownOf(persisted, account)), old(QueueOf(queues, account)),
                            old(QueueOf(storage.document, account)), d, QueueOf(queues, account))
    {
      if d.Some? {
        EditHeld(account, d.value);
      } else {
        assert Sound(queues, persisted, account);
        Save(account, QueueOf(queues, account));
      }
    }

    /** What the queue holds under this operation, if the reference is still attached to it. */
    function Referenced(account: AccountId, op: Id, attached: bool): (c: Option<Command>)
      reads this
      requires attached ==> Get(MapOf(QueueOf(queues, account)), op).Some?
      ensures c.Some? ==> OpId(c.value) == op && CanTakePlace(QueueOf(queues, account), c.value)
    {
      var queue := QueueOf(queues, account);
      MapOfMember(queue, op);
      if attached then Get(MapOf(queue), op) else None
    }

    /**
     * The second half of enqueue: the projection of the durable copy succeeded or threw. The outcome is
     * written into the object taken before the projection ran; attached says whether the queue still holds it.
     */
    method FinishProjection(account: AccountId, op: Id, attached: bool, failure: Option<Reason>)
      requires Valid() && storage.Valid() && (attached ==> Get(MapOf(QueueOf(queues, account)), op).Some?)
      modifies this`queues, this`persisted, this`drainRequested, storage
      ensures Valid() && storage.Valid() && OnlyPersisted(account)
      ensures DrainAsked(account, old(Ids(QueueOf(queues, account))))
      ensures var c := old(Referenced(account, op, attached));
              var d := if c.None? then None
                       else Some(c.value.(status := Some(if failure.None? then Pending else Failed),
                                          lastError := failure));
              EditPersisted(old(KnownOf(persisted, account)), old(QueueOf(queues, account)),
                            old(QueueOf(storage.document, account)), d, QueueOf(queues, account))
    {
      var c := Referenced(account, op, attached);
      if c.None? {
        EditReference(account, None);
      } else {
        EditReference(account, Some(c.value.(status := Some(if failure.None? then Pending else Failed),
                                             lastError := failure)));
      }
    }

    /** The first half of activate: the command, if this engine's copy is staged under the claim. */
    method BeginActivation(account: AccountId, op: Id, claimId: Id) returns (held: Option<Command>)
      ensures held == (var c := Get(MapOf(QueueOf(queues, account)), op);
                       if c.Some? && HeldBy(c.value, claimId) then c else None)
    {
      held := Get(MapOf(QueueOf(queues, account)), op);
      if held.Some? && !HeldBy(held.value, claimId) {
        held := None;
      }
    }

    /**
     * The second half: the projection succeeded or threw. The answer is that outcome, whether or not the edit
     * reaches the queue: success makes the command pending and gives the lease back, a throw makes it failed.
     */
    method FinishActivation(account: AccountId, op: Id, attached: bool, failure: Option<Reason>) returns (done: bool)
      requires Valid() && storage.Valid() && (attached ==> Get(MapOf(QueueOf(queues, account)), op).Some?)
      modifies this`queues, this`persisted, this`drainRequested, storage
      ensures Valid() && storage.Valid() && OnlyPersisted(account) && done == failure.None?
      ensures DrainAsked(account, old(Ids(QueueOf(queues, account))))
      ensures var c := old(Referenced(account, op, attached));
              var d := if c.None? then None
                       else if failure.None? then
                         Some(c.value.(status := Some(Pending), lastError := None, claimId := None,
                                       claimExpiresAt := None))
                       else Some(c.value.(status := Some(Failed), lastError := failure));
              EditPersisted(old(KnownOf(persisted, account)), old(QueueOf(queues, account)),
                            old(QueueOf(storage.document, account)), d, QueueOf(queues, account))
    {
      var c := Referenced(account, op, attached);
      done := failure.None?;
      if c.None? {
        EditReference(account, None);
      } else if done {
        EditReference(account, Some(c.value.(status := Some(Pending), lastError := None, claimId := None,
                                             claimExpiresAt := None)));
      } else {
        EditReference(account, Some(c.value.(status := Some(Failed), lastError := failure)));
      }
    }

    /**
     * Both halves at once. The answer is true exactly when this engine's own copy is staged under the claim
     * and the projection went through.
     */
    method Activate(account: AccountId, op: Id, claimId: Id, failure: Option<Reason>) returns (done: bool)
      requires Valid() && storage.Valid()
      modifies this`queues, this`persisted, this`drainRequested, storage
      ensures Valid() && storage.Valid()
      ensures var held := Get(old(MapOf(QueueOf(queues, account))), op);
              && done == (held.Some? && HeldBy(held.value, claimId) && failure.None?)
              && (!(held.Some? && HeldBy(held.value, claimId)) ==>
                    && queues == old(queues) && persisted == old(persisted)
                    && storage.document == old(storage.document) && drainRequested == old(drainRequested))
      ensures var held := Get(old(MapOf(QueueOf(queues, account))), op);
              held.Some? && HeldBy(held.value, claimId) ==>
                var known, queue := old(KnownOf(persisted, account)), old(QueueOf(queues, account));
                var stored := old(QueueOf(storage.document, account));
                var d := if failure.None? then
                           held.value.(status := Some(Pending), lastError := None, claimId := None,
                                       claimExpiresAt := None)
                         else held.value.(status := Some(Failed), lastError := failure);
                && OnlyPersisted(account) && DrainAsked(account, Ids(queue))
                && QueueOf(queues, account) == Merge(known, Replaced(queue, d), stored)
                && (known == MapOf(queue) ==> QueueOf(queues, account) == SwapAll(stored, known, map[op := d]))
    {
      var held := BeginActivation(account, op, claimId);
      done := false;
      if held.Some? {
        done := FinishActivation(account, op, true, failure);
      }
    }

    /** Withdraws a staged command; the stored copy goes too, whatever it looks like by now. */
    method Cancel(account: AccountId, op: Id, claimId: Id) returns (done: bool)
      requires Valid() && storage.Valid()
      modifies this`queues, this`persisted, this`drainRequested, storage
      ensures Valid() && storage.Valid()
      ensures var held := Get(old(MapOf(QueueOf(queues, account))), op);
              done == (held.Some? && HeldBy(held.value, claimId))
      ensures !done ==>
        && queues == old(queues) && persisted == old(persisted) && storage.document == old(storage.document)
        && drainRequested == old(drainRequested)
      ensures done ==>
        && OnlyPersisted(account) && DrainAsked(account, old(Ids(QueueOf(queues, account))) - {op})
        && QueueOf(queues, account)
           == Merge(old(KnownOf(persisted, account)), Without(old(QueueOf(queues, account)), {op}),
                    old(QueueOf(storage.document, account)))
      ensures done && old(AtRest(account)) ==>
                QueueOf(storage.document, account) == Without(old(QueueOf(storage.document, account)), {op})
    {
      var queue := QueueOf(queues, account);
      var held := Get(MapOf(queue), op);
      assert Sound(queues, persisted, account);
      done := held.Some? && HeldBy(held.value, claimId);
      if done {
        WithoutIs(queue, {op});
        ghost var stored := QueueOf(storage.document, account);
        if KnownOf(persisted, account) == MapOf(queue) {
          RemovalIsWithout(queue, {op}, stored);
        }
        Save(account, Without(queue, {op}));
        WithQueueIs(old(storage.document), account, QueueOf(queues, account));
      }
    }

    /** A persist pass for one account's local change, if there is one. */
    method SaveChange(account: AccountId, local: Option<seq<Command>>)
      requires Valid() && storage.Valid() && (local.Some? ==> Unique(local.value))
      modifies this`queues, this`persisted, this`drainRequested, storage
      ensures Valid() && storage.Valid()
      ensures MergedAt(old(queues), old(persisted), old(storage.document), queues, storage.document, local, account)
      ensures OnlyDiffersAt(old(queues), old(persisted), queues, persisted, account)
      ensures forall a | a != account :: QueueOf(storage.document, a) == QueueOf(old(storage.document), a)
      ensures if local.Some? then DrainAsked(account, Ids(local.value)) else drainRequested == old(drainRequested)
    {
      if local.Some? {
        Save(account, local.value);
        WithQueueIs(old(storage.document), account, QueueOf(queues, account));
      }
    }

    /** Takes the leases of one account; nothing is persisted if there is none to take. */
    method ClaimQueue(account: AccountId, edit: LocalEdit) returns (own: seq<Command>)
      requires Valid() && storage.Valid() && edit.TakeClaim?
      modifies this`queues, this`persisted, this`drainRequested, storage
      ensures Valid() && storage.Valid() && (old(drainRequested) ==> drainRequested)
      ensures own == Claims(old(QueueOf(queues, account)), edit)
      ensures MergedAt(old(queues), old(persisted), old(storage.document), queues, storage.document,
                       ClaimedLocal(old(QueueOf(queues, account)), edit.claimId, edit.expiresAt, edit.now), account)
      ensures OnlyDiffersAt(old(queues), old(persisted), queues, persisted, account)
      ensures forall a | a != account :: QueueOf(storage.document, a) == QueueOf(old(storage.document), a)
    {
      hide Claims, AllClaimed, MergedAt;
      assert Sound(queues, persisted, account);
      var local;
      local, own := ClaimAll(QueueOf(queues, account), edit);
      AllClaimedIs(QueueOf(queues, account), edit);
      SaveChange(account, if own == [] then None else Some(local));
    }

    /** Takes every free or expired lease, account by account, and returns the claimed copies. */
    method ClaimStaged(claimId: Id, leaseMs: nat, now: Time) returns (claimed: map<AccountId, seq<Command>>)
      requires Valid() && storage.Valid()
      modifies this`queues, this`persisted, this`drainRequested, storage
      ensures Valid() && storage.Valid()
      ensures var edit := TakeClaim(claimId, now + leaseMs, now);
              && AllMerged(old(queues), old(persisted), old(storage.document), queues, storage.document,
                           q => ClaimedLocal(q, claimId, now + leaseMs, now))
              && claimed.Keys == old(queues).Keys && (old(drainRequested) ==> drainRequested)
              && forall a | a in claimed :: claimed[a] == Claims(old(QueueOf(queues, a)), edit)
    {
      var edit := TakeClaim(claimId, now + leaseMs, now);
      ghost var change := q => ClaimedLocal(q, claimId, now + leaseMs, now);
      claimed := map[];
      var rest := queues.Keys;
      ghost var q0, p0, d0 := queues, persisted, storage.document;
      ProgressStarts(q0, p0, d0, change);
      while rest != {}
        invariant Valid() && storage.Valid() && rest <= q0.Keys && (old(drainRequested) ==> drainRequested)
        invariant Progress(q0, p0, d0, queues, persisted, storage.document, rest, change)
        invariant claimed.Keys == q0.Keys - rest
        invariant forall a | a in claimed :: claimed[a] == Claims(QueueOf(q0, a), edit)
        decreases rest
      {
        hide Claims, ClaimedLocal, MergedAt, Progress;
        var account :| account in rest;
        ghost var q1, p1, d1 := queues, persisted, storage.document;
        ProgressAt(q0, p0, d0, q1, p1, d1, rest, change, account);
        var own := ClaimQueue(account, edit);
        ProgressStep(q0, p0, d0, q1, p1, d1, queues, persisted, storage.document, rest, change, account);
        claimed := claimed[account := own];
        rest := rest - {account};
      }
      ProgressEnds(q0, p0, d0, queues, persisted, storage.document, change);
    }

    // -------------------------------------------------------------------------
    // Restart and clearing
    // -------------------------------------------------------------------------

    /** Rebuilds memory from storage; what is stored stays as it is. */
    method Load()
      requires storage.Valid()
      modifies this`queues, this`persisted
      ensures Valid()
      ensures forall a :: Restored(storage.document, queues, persisted, {}, a)
      ensures forall a | NormalizeAll(QueueOf(storage.document, a), a) == QueueOf(storage.document, a) ::
                AtRest(a) && QueueOf(queues, a) == QueueOf(storage.document, a)
    {
      queues, persisted := map[], map[];
      var rest := storage.document.Keys;
      while rest != {}
        invariant rest <= storage.document.Keys
        invariant forall a :: Restored(storage.document, queues, persisted, rest, a)
        invariant forall a | a in queues :: queues[a] != []
        decreases |rest|
      {
        ghost var queues0, persisted0, rest0 := queues, persisted, rest;
        var account :| account in rest;
        rest := rest - {account};
        var queue := storage.document[account];
        WithQueueIs(queues, account, SortByTime(NormalizeAll(queue, account)));
        queues := WithQueue(queues, account, SortByTime(NormalizeAll(queue, account)));
        persisted := persisted[account := MapOf(queue)];
        forall a ensures Restored(storage.document, queues, persisted, rest, a) {
          assert Restored(storage.document, queues0, persisted0, rest0, a);
        }
      }
      forall a ensures Sound(queues, persisted, a) {
        assert Restored(storage.document, queues, persisted, {}, a);
        NormalizeAllIs(QueueOf(storage.document, a), a);
        SortIs(NormalizeAll(QueueOf(storage.document, a), a));
      }
      forall a | NormalizeAll(QueueOf(storage.document, a), a) == QueueOf(storage.document, a)
        ensures AtRest(a) && QueueOf(queues, a) == QueueOf(storage.document, a)
      {
        assert Restored(storage.document, queues, persisted, {}, a);
        SortIs(QueueOf(storage.document, a));
      }
    }

    /**
     * A restart: memory is rebuilt from storage; with a reconciler every command that is not staged or
     * terminal is projected again, and what that changes is persisted. Returns the commands found in
     * conflict; q0 and p0 are what was loaded.
     */
    method Restore(project: Command -> Projection)
      returns (conflicts: map<AccountId, seq<Command>>, ghost q0: Document, ghost p0: Persisted)
      requires storage.Valid()
      modifies this`queues, this`persisted, this`drainRequested, storage
      ensures Valid() && storage.Valid()
      ensures forall a :: Restored(old(storage.document), q0, p0, {}, a)
      ensures old(drainRequested) ==> drainRequested
      ensures !hasReconciler ==>
                && queues == q0 && persisted == p0 && storage.document == old(storage.document) && conflicts == map[]
                && drainRequested == old(drainRequested)
      ensures hasReconciler ==>
                && AllMerged(q0, p0, old(storage.document), queues, storage.document, q => ReappliedLocal(q, project))
                && conflicts.Keys == q0.Keys
                && forall a | a in conflicts :: conflicts[a] == ConflictsOf(QueueOf(q0, a), project)
    {
      Load();
      conflicts, q0, p0 := map[], queues, persisted;
      if hasReconciler {
        conflicts := ReapplyEverywhere(project);
      }
    }

    /** Projects the commands of one account again; nothing is persisted if that changes none. */
    method ReapplyQueue(account: AccountId, project: Command -> Projection) returns (own: seq<Command>)
      requires Valid() && storage.Valid()
      modifies this`queues, this`persisted, this`drainRequested, storage
      ensures Valid() && storage.Valid() && (old(drainRequested) ==> drainRequested)
      ensures own == ConflictsOf(old(QueueOf(queues, account)), project)
      ensures MergedAt(old(queues), old(persisted), old(storage.document), queues, storage.document,
                       ReappliedLocal(old(QueueOf(queues, account)), project), account)
      ensures OnlyDiffersAt(old(queues), old(persisted), queues, persisted, account)
      ensures forall a | a != account :: QueueOf(storage.document, a) == QueueOf(old(storage.document), a)
    {
      hide Reapplied, ConflictsOf, MergedAt;
      assert Sound(queues, persisted, account);
      var local, changed;
      local, own, changed := ReapplyAll(QueueOf(queues, account), project);
      ReappliedIs(QueueOf(queues, account), project);
      SaveChange(account, if changed then Some(local) else None);
    }

    /** Projects every loaded command again, account by account. */
    method ReapplyEverywhere(project: Command -> Projection) returns (conflicts: map<AccountId, seq<Command>>)
      requires Valid() && storage.Valid()
      modifies this`queues, this`persisted, this`drainRequested, storage
      ensures Valid() && storage.Valid()
      ensures AllMerged(old(queues), old(persisted), old(storage.document), queues, storage.document,
                        q => ReappliedLocal(q, project))
      ensures conflicts.Keys == old(queues).Keys && (old(drainRequested) ==> drainRequested)
      ensures forall a | a in conflicts :: conflicts[a] == ConflictsOf(old(QueueOf(queues, a)), project)
    {
      ghost var change := q => ReappliedLocal(q, project);
      conflicts := map[];
      var rest := queues.Keys;
      ghost var q0, p0, d0 := queues, persisted, storage.document;
      ProgressStarts(q0, p0, d0, change);
      while rest != {}
        invariant Valid() && storage.Valid() && rest <= q0.Keys && (old(drainRequested) ==> drainRequested)
        invariant Progress(q0, p0, d0, queues, persisted, storage.document, rest, change)
        invariant conflicts.Keys == q0.Keys - rest
        invariant forall a | a in conflicts :: conflicts[a] == ConflictsOf(QueueOf(q0, a), project)
        decreases rest
      {
        hide ReappliedLocal, ConflictsOf, MergedAt, Progress;
        var account :| account in rest;
        ghost var q1, p1, d1 := queues, persisted, storage.document;
        ProgressAt(q0, p0, d0, q1, p1, d1, rest, change, account);
        var own := ReapplyQueue(account, project);
        ProgressStep(q0, p0, d0, q1, p1, d1, queues, persisted, storage.document, rest, change, account);
        conflicts := conflicts[account := own];
        rest := rest - {account};
      }
      ProgressEnds(q0, p0, d0, queues, persisted, storage.document, change);
    }

    /** Drops this account's queue here and every command of it that this engine knew of in storage. */
    method Clear(account: AccountId)
      requires Valid() && storage.Valid()
      modifies this`queues, this`persisted, this`drainRequested, storage
      ensures Valid() && storage.Valid() && OnlyPersisted(account)
      ensures QueueOf(queues, account)
           == Without(old(QueueOf(storage.document, account)), old(KnownOf(persisted, account).Keys))
      ensures DrainAsked(account, {})
    {
      var known := KnownOf(persisted, account);
      ghost var stored := QueueOf(storage.document, account);
      ClearIsWithout(known, stored);
      Save(account, []);
    }

    method ClearEverything()
      requires storage.Valid()
      modifies this`queues, this`persisted, this`drainRequested, storage
      ensures Valid() && storage.Valid()
      ensures queues == map[] && persisted == map[] && storage.document == map[]
      ensures drainRequested == old(drainRequested)
    {
      queues, persisted := map[], map[];
      storage.document := map[];
    }

    // -------------------------------------------------------------------------
    // Draining
    // -------------------------------------------------------------------------

    /** Memory and storage agree on this account: nobody else has written. */
    ghost predicate Closed(account: AccountId)
      reads this, storage
    {
      ClosedAt(queues, persisted, storage.document, account)
    }

    /**
     * Removes an acknowledged command from the stored queue and points the next one of its item at the
     * revision the server landed on. Returns that one if this put it in conflict.
     */
    method PersistAcknowledgement(
      account: AccountId, c: Command, version: Option<Version>, freshKey: Id, freshCopy: Id)
      returns (conflicted: Option<Command>)
      requires Valid() && storage.Valid()
      modifies this`queues, this`persisted, this`drainRequested, storage
      ensures Valid() && storage.Valid() && OnlyPersisted(account) && Closed(account)
      ensures drainRequested == old(drainRequested)
      ensures var stored := old(QueueOf(storage.document, account));
              QueueOf(queues, account) == Acknowledge(stored, OpId(c), c.entity, version, freshKey, freshCopy)
      ensures var next := FirstActive(Without(old(QueueOf(storage.document, account)), {OpId(c)}), c.entity);
              if version.None? || next.None? then conflicted == None
              else
                var d := RebaseChained(next.value, version.value, freshKey, freshCopy);
                conflicted == if d.status == Some(Conflicted) then Some(d) else None
    {
      var next := Without(QueueOf(storage.document, account), {OpId(c)});
      WithoutIs(QueueOf(storage.document, account), {OpId(c)});
      WithoutSorted(QueueOf(storage.document, account), {OpId(c)});
      conflicted := None;
      if version.Some? {
        ghost var rest := next;
        ChainIs(rest, c.entity, version.value, freshKey, freshCopy);
        var i := FindActive(next, c.entity);
        if i < |next| {
          var d := RebaseChained(next[i], version.value, freshKey, freshCopy);
          ChainAt(next, i, c.entity, version.value, freshKey, freshCopy);
          next := next[i := d];
          if d.status == Some(Conflicted) {
            conflicted := Some(d);
          }
        }
      }
      storage.Replace(account, next);
      WithQueueIs(old(storage.document), account, next);
      Adopt(account, next);
    }

    /**
     * One drain pass over one account. The environment answers each dispatch; without a client the
     * first runnable command is put back once and nothing is sent.
     */
    method DrainAccount<S>(account: AccountId, env: Surroundings<S>, start: S, client: Option<Reason>, spare: Id)
      returns (world: S, attempted: set<Id>, sent: seq<Command>)
      requires Valid() && storage.Valid() && Closed(account)
      modifies this`queues, this`persisted, this`drainRequested, storage
      ensures Valid() && storage.Valid() && Closed(account) && OnlyPersisted(account)
      ensures drainRequested == old(drainRequested)
      ensures Unique(old(QueueOf(queues, account)))
      ensures (QueueOf(queues, account), world) == Visited(env, client, spare, old(QueueOf(queues, account)), start)
      ensures client.None? ==>
                Pass(QueueOf(queues, account), attempted, world, sent)
                == Drained(env, Pass(old(QueueOf(queues, account)), {}, start, []))
      ensures client.Some? ==> sent == []
    {
      world, attempted, sent := start, {}, [];
      assert Sound(queues, persisted, account);
      SelfPersisted(storage.document, account);
      var next := FirstRunnable([], QueueOf(queues, account), attempted, env.clock(world));
      if next.Some? && client.Some? {
        PickedIsQueued([], QueueOf(queues, account), attempted, env.clock(world));
        var d := MarkRetrying(next.value, env.clock(start), client.value, spare);
        SettleFailure(account, next.value, d);
      } else if next.Some? {
        world, attempted, sent := DrainLoop(account, env, start);
      }
    }

    /** A dispatched command failed: its new copy takes its place, here and in storage. */
    method SettleFailure(account: AccountId, c: Command, d: Command)
      requires Valid() && storage.Valid() && Closed(account)
      requires c in QueueOf(queues, account) && OpId(d) == OpId(c) && d.timestamp == c.timestamp
      modifies this`queues, this`persisted, this`drainRequested, storage
      ensures Valid() && storage.Valid() && Closed(account) && OnlyPersisted(account)
      ensures QueueOf(queues, account) == Replaced(old(QueueOf(queues, account)), d)
      ensures drainRequested == old(drainRequested)
    {
      var queue := QueueOf(queues, account);
      assert Sound(queues, persisted, account);
      MemberInMap(queue, c);
      IdsReplaced(queue, d);
      SwapAllSelf(queue, MapOf(queue), map[OpId(d) := d]);
      EditHeld(account, d);
      WithQueueIs(old(storage.document), account, QueueOf(queues, account));
    }

    method DrainLoop<S>(account: AccountId, env: Surroundings<S>, start: S)
      returns (world: S, attempted: set<Id>, sent: seq<Command>)
      requires Valid() && storage.Valid() && Closed(account) && Unique(QueueOf(queues, account))
      modifies this`queues, this`persisted, this`drainRequested, storage
      ensures Valid() && storage.Valid() && Closed(account) && OnlyPersisted(account)
      ensures drainRequested == old(drainRequested)
      ensures Pass(QueueOf(queues, account), attempted, world, sent)
           == Drained(env, Pass(old(QueueOf(queues, account)), {}, start, []))
    {
      world, attempted, sent := start, {}, [];
      ghost var first := Pass(QueueOf(queues, account), {}, start, []);
      SelfPersisted(storage.document, account);
      var next := FirstRunnable([], QueueOf(queues, account), attempted, env.clock(world));
      while next.Some?
        invariant Valid() && storage.Valid() && Closed(account) && Unique(QueueOf(queues, account))
        invariant OnlyPersisted(account) && drainRequested == old(drainRequested)
        invariant Drained(env, Pass(QueueOf(queues, account), attempted, world, sent)) == Drained(env, first)
        invariant next == FirstRunnable([], QueueOf(queues, account), attempted, env.clock(world))
        decreases Work(QueueOf(queues, account))
      {
        var c, r := next.value, env.respond(world, next.value);
        ghost var p := Pass(QueueOf(queues, account), attempted, world, sent);
        ghost var document := storage.document;
        PickedIsQueued([], p.queue, attempted, env.clock(world));
        TurnUsesWork(env, p, c);
        if r.reply.Accepted? {
          var conflicted := PersistAcknowledgement(account, c, r.reply.version, r.freshKey, r.freshCopy);
        } else {
          var now := env.clock(r.next);
          FailureUsesEffort(c, r.reply, r.current, now, r.freshKey, r.freshCopy);
          SettleFailure(account, c, AfterFailure(c, r.reply, r.current, now, r.freshKey, r.freshCopy));
          if r.reply.Unreached? || r.reply.Unexpected? {
            attempted := attempted + {OpId(c)};
          }
        }
        PersistedTwice(old(storage.document), account, p.queue, QueueOf(queues, account));
        world, sent := r.next, sent + [c];
        assert Pass(QueueOf(queues, account), attempted, world, sent) == Turn(env, p, c);
        next := FirstRunnable([], QueueOf(queues, account), attempted, env.clock(world));
      }
    }

    /** One pass over every account that has a queue, in order; getClient is asked once per account. */
    method DrainOnce<S>(env: Surroundings<S>, start: S, clients: AccountId -> Option<Reason>, spare: Id)
      returns (world: S)
      requires Valid() && storage.Valid() && AllClosed(queues, persisted, storage.document)
      modifies this`queues, this`persisted, this`drainRequested, storage
      ensures Valid() && storage.Valid() && AllClosed(queues, persisted, storage.document)
      ensures drainRequested == old(drainRequested)
      ensures AllUnique(old(storage.document))
      ensures (storage.document, world)
           == AllVisited(env, clients, spare, Ascending(old(queues.Keys)), old(storage.document), start)
    {
      world := start;
      AllSound();
      var accounts := Ascending(queues.Keys);
      assert accounts[0..] == accounts;
      for i := 0 to |accounts|
        invariant Valid() && storage.Valid() && AllUnique(storage.document)
        invariant AllClosed(queues, persisted, storage.document)
        invariant drainRequested == old(drainRequested)
        invariant AllVisited(env, clients, spare, accounts[i..], storage.document, world)
               == AllVisited(env, clients, spare, accounts, old(storage.document), start)
      {
        assert accounts[i..][0] == accounts[i] && accounts[i..][1..] == accounts[i + 1..];
        ghost var before := storage.document;
        ghost var q0, p0 := queues, persisted;
        assert ClosedAt(q0, p0, before, accounts[i]);
        var attempted, sent;
        world, attempted, sent := DrainAccount(accounts[i], env, world, clients(accounts[i]), spare);
        OthersStillClosed(q0, p0, before, queues, persisted, storage.document, accounts[i]);
        AllSound();
      }
    }

    lemma AllSound()
      requires Valid() && AllClosed(queues, persisted, storage.document)
      ensures AllUnique(storage.document)
    {
      forall a ensures Unique(QueueOf(storage.document, a)) {
        assert ClosedAt(queues, persisted, storage.document, a) && Sound(queues, persisted, a);
      }
    }

    /**
     * Drains everything. A call that arrives during another one only leaves a request; arrivals says
     * during which of its passes that happened, and each such pass is followed by one more.
     */
    method Drain<S(!new)>(
      env: Surroundings<S>, start: S, clients: AccountId -> Option<Reason>, spare: Id, arrivals: seq<bool>)
      returns (world: S)
      requires Valid() && storage.Valid() && AllClosed(queues, persisted, storage.document)
      modifies this, storage
      ensures Valid() && storage.Valid() && AllClosed(queues, persisted, storage.document)
      ensures AllUnique(old(storage.document))
      ensures old(draining) ==>
                && draining && drainRequested && world == start
                && queues == old(queues) && persisted == old(persisted) && storage.document == old(storage.document)
      ensures !old(draining) ==>
                && !draining && !drainRequested
                && (storage.document, world)
                   == AllPasses(env, clients, spare, 1 + Requests(arrivals), old(storage.document), start)
      ensures !old(draining) && Requests(arrivals) == 0 ==>
                EachVisitedOnce(env, clients, spare, old(storage.document), storage.document)
    {
      hide AllPasses, AllVisited, EachVisitedOnce, AllUnique, AllClosed, Sound, Ascending;
      world := start;
      AllSound();
      if draining {
        drainRequested := true;
        return;
      }
      draining := true;
      var again, i := true, 0;
      ghost var d0, n := storage.document, 1 + Requests(arrivals);
      assert arrivals[0..] == arrivals;
      while again
        invariant Valid() && storage.Valid() && draining && i <= |arrivals| + 1
        invariant AllClosed(queues, persisted, storage.document) && AllUnique(storage.document) && AllUnique(d0)
        invariant again ==>
          i <= |arrivals|
          && AllPasses(env, clients, spare, 1 + Requests(arrivals[i..]), storage.document, world)
             == AllPasses(env, clients, spare, n, d0, start)
        invariant !again ==>
          !drainRequested && (storage.document, world) == AllPasses(env, clients, spare, n, d0, start)
        decreases |arrivals| + 1 - i, again
      {
        drainRequested := false;
        ghost var d1, w1 := storage.document, world;
        SameAccounts(queues, persisted, storage.document);
        world := DrainOnce(env, world, clients, spare);
        AllSound();
        OnePass(env, clients, spare, 1 + Requests(arrivals[i..]), d1, w1);
        NoPass(env, clients, spare, storage.document, world);
        if i < |arrivals| && arrivals[i] {
          drainRequested := true;
          assert arrivals[i..][0] && arrivals[i..][1..] == arrivals[i + 1..];
        }
        again, i := drainRequested, i + 1;
      }
      draining := false;
      SinglePassVisitsAll(env, clients, spare, n, d0, start);
    }
  }

  lemma OthersStillClosed(
    q0: Document, p0: Persisted, d0: Document, q1: Document, p1: Persisted, d1: Document, account: AccountId)
    requires AllClosed(q0, p0, d0) && OnlyDiffersAt(q0, p0, q1, p1, account)
    requires ClosedAt(q1, p1, d1, account) && d1 == WithQueue(d0, account, QueueOf(q1, account))
    ensures AllClosed(q1, p1, d1)
  {
    WithQueueIs(d0, account, QueueOf(q1, account));
    forall a ensures ClosedAt(q1, p1, d1, a) {
      assert ClosedAt(q0, p0, d0, a);
    }
  }

  /** Memory and storage agree: nothing to persist. */
  lemma SelfPersisted(d: Document, account: AccountId)
    requires account in d ==> d[account] != []
    ensures d == WithQueue(d, account, QueueOf(d, account))
  {
  }

  lemma PersistedTwice(d: Document, account: AccountId, p: seq<Command>, q: seq<Command>)
    ensures WithQueue(WithQueue(d, account, p), account, q) == WithQueue(d, account, q)
  {
  }

  lemma IdsReplaced(q: seq<Command>, d: Command)
    requires Unique(q) && OpId(d) in Ids(q)
    ensures Ids(Replaced(q, d)) == Ids(q)
  {
    ReplacedUnique(q, d);
  }

  ghost predicate AllUnique(d: Document) {
    forall a :: Unique(QueueOf(d, a))
  }

  /** A queue and the environment after one account was visited by a drain. */
  function Visited<S>(env: Surroundings<S>, client: Option<Reason>, spare: Id, q: seq<Command>, s: S)
    : (seq<Command>, S)
    requires Unique(q)
  {
    var p := Pass(q, {}, s, []);
    var next := Picked(env, p);
    if next.None? then (q, s)
    else if client.Some? then (Replaced(q, MarkRetrying(next.value, env.clock(s), client.value, spare)), s)
    else var z := Drained(env, p); (z.queue, z.world)
  }

  /** Without a client the first runnable command is put back, once, and nothing else happens. */
  lemma VisitWithoutClient<S>(env: Surroundings<S>, reason: Reason, spare: Id, q: seq<Command>, s: S)
    requires Unique(q)
    ensures var next, (after, t) := Picked(env, Pass(q, {}, s, [])), Visited(env, Some(reason), spare, q, s);
            && t == s && (next.None? ==> after == q)
            && (next.Some? ==>
                  var op := OpId(next.value);
                  && op in MapOf(after) && PutBack(next.value, MapOf(after)[op], env.clock(s), reason)
                  && MapOf(after) == MapOf(q)[op := MapOf(after)[op]])
  {
    var next := Picked(env, Pass(q, {}, s, []));
    if next.Some? {
      var c := next.value;
      var d := MarkRetrying(c, env.clock(s), reason, spare);
      PickedIsQueued([], q, {}, env.clock(s));
      MemberInMap(q, c);
      FailureOutcome(c, Unreached(reason), Unavailable(reason), env.clock(s), spare, spare);
      ReplacedUnique(q, d);
    }
  }

  lemma VisitedUnique<S>(env: Surroundings<S>, client: Option<Reason>, spare: Id, q: seq<Command>, s: S)
    requires Unique(q)
    ensures Unique(Visited(env, client, spare, q, s).0)
  {
    var p := Pass(q, {}, s, []);
    var next := Picked(env, p);
    if next.Some? {
      PickedIsQueued([], q, {}, env.clock(s));
      MemberInMap(q, next.value);
      if client.Some? {
        ReplacedUnique(q, MarkRetrying(next.value, env.clock(s), client.value, spare));
      } else {
        NothingRunnableLeft(env, p);
      }
    }
  }

  /** The accounts visited one after the other; each sees the environment the previous one left. */
  ghost function AllVisited<S>(
    env: Surroundings<S>, clients: AccountId -> Option<Reason>, spare: Id, accounts: seq<AccountId>, d: Document, s: S)
    : (r: (Document, S))
    requires AllUnique(d)
    ensures AllUnique(r.0)
    decreases |accounts|
  {
    if accounts == [] then (d, s)
    else
      var (q, t) := Visited(env, clients(accounts[0]), spare, QueueOf(d, accounts[0]), s);
      VisitedUnique(env, clients(accounts[0]), spare, QueueOf(d, accounts[0]), s);
      WithQueueIs(d, accounts[0], q);
      AllVisited(env, clients, spare, accounts[1..], WithQueue(d, accounts[0], q), t)
  }

  /** A drain pass over all accounts, n times. */
  ghost function AllPasses<S>(
    env: Surroundings<S>, clients: AccountId -> Option<Reason>, spare: Id, n: nat, d: Document, s: S): (Document, S)
    requires AllUnique(d)
  {
    if n == 0 then (d, s)
    else
      var (d', s') := AllVisited(env, clients, spare, Ascending(d.Keys), d, s);
      AllPasses(env, clients, spare, n - 1, d', s')
  }

  lemma NoPass<S>(env: Surroundings<S>, clients: AccountId -> Option<Reason>, spare: Id, d: Document, s: S)
    requires AllUnique(d)
    ensures AllPasses(env, clients, spare, 0, d, s) == (d, s)
  {
  }

  lemma OnePass<S>(env: Surroundings<S>, clients: AccountId -> Option<Reason>, spare: Id, n: nat, d: Document, s: S)
    requires AllUnique(d) && n > 0
    ensures var (d', s') := AllVisited(env, clients, spare, Ascending(d.Keys), d, s);
            AllPasses(env, clients, spare, n, d, s) == AllPasses(env, clients, spare, n - 1, d', s')
  {
  }

  /** How many follow-up passes are asked for: a pass nobody interrupts is the last. */
  function Requests(arrivals: seq<bool>): nat {
    if arrivals == [] || !arrivals[0] then 0 else 1 + Requests(arrivals[1..])
  }

  /** The first pass nobody interrupts is the one after all that somebody did. */
  lemma {:induction false} RequestsAre(arrivals: seq<bool>)
    ensures Requests(arrivals) <= |arrivals| && forall i | 0 <= i < Requests(arrivals) :: arrivals[i]
    ensures Requests(arrivals) < |arrivals| ==> !arrivals[Requests(arrivals)]
  {
    if arrivals != [] {
      RequestsAre(arrivals[1..]);
    }
  }

  /** Memory and storage list the same accounts. */
  lemma SameAccounts(queues: Document, persisted: Persisted, document: Document)
    requires AllClosed(queues, persisted, document)
    requires forall a | a in document :: document[a] != []
    requires forall a :: Sound(queues, persisted, a)
    ensures queues.Keys == document.Keys
  {
    forall a ensures a in queues <==> a in document {
      assert ClosedAt(queues, persisted, document, a) && Sound(queues, persisted, a);
    }
  }

  /** A set of accounts in ascending order. */
  function Ascending(accounts: set<AccountId>): seq<AccountId> {
    if accounts == {} then []
    else
      var least := Least(accounts);
      [least] + Ascending(accounts - {least})
  }

  predicate Increasing(accounts: seq<AccountId>) {
    forall i, j | 0 <= i < j < |accounts| :: accounts[i] < accounts[j]
  }

  /** Every account once, in order. */
  lemma {:induction false} AscendingIs(accounts: set<AccountId>)
    ensures Increasing(Ascending(accounts))
    ensures forall a :: a in Ascending(accounts) <==> a in accounts
  {
    if accounts != {} {
      var least := Least(accounts);
      AscendingIs(accounts - {least});
      var rest := Ascending(accounts - {least});
      assert forall i | 0 <= i < |rest| :: rest[i] in rest;
      assert forall a :: a in [least] + rest <==> a == least || a in rest;
    }
  }

  /** The queue is what a visit of this account makes of the old one, in some world. */
  ghost predicate VisitedOnce<S(!new)>(
    env: Surroundings<S>, client: Option<Reason>, spare: Id, q: seq<Command>, after: seq<Command>)
    requires Unique(q)
  {
    exists s :: after == Visited(env, client, spare, q, s).0
  }

  /** A pass over these accounts visits each of them exactly once and leaves the others alone. */
  lemma {:induction false} EachIsVisited<S(!new)>(
    env: Surroundings<S>, clients: AccountId -> Option<Reason>, spare: Id, accounts: seq<AccountId>, d: Document, s: S,
    a: AccountId)
    requires AllUnique(d) && Increasing(accounts)
    ensures var after := QueueOf(AllVisited(env, clients, spare, accounts, d, s).0, a);
            if a in accounts then VisitedOnce(env, clients(a), spare, QueueOf(d, a), after)
            else after == QueueOf(d, a)
    decreases |accounts|
  {
    if accounts != [] {
      var b, rest := accounts[0], accounts[1..];
      var (q, t) := Visited(env, clients(b), spare, QueueOf(d, b), s);
      VisitedUnique(env, clients(b), spare, QueueOf(d, b), s);
      WithQueueIs(d, b, q);
      assert forall i | 0 <= i < |rest| :: b < rest[i];
      hide Visited;
      EachIsVisited(env, clients, spare, rest, WithQueue(d, b, q), t, a);
    }
  }

  /** A pass over a whole document visits every account. */
  lemma PassVisitsAll<S(!new)>(
    env: Surroundings<S>, clients: AccountId -> Option<Reason>, spare: Id, d: Document, s: S, a: AccountId)
    requires AllUnique(d)
    ensures VisitedOnce(env, clients(a), spare, QueueOf(d, a),
                        QueueOf(AllVisited(env, clients, spare, Ascending(d.Keys), d, s).0, a))
  {
    AscendingIs(d.Keys);
    EachIsVisited(env, clients, spare, Ascending(d.Keys), d, s, a);
    if a !in d {
      assert QueueOf(d, a) == Visited(env, clients(a), spare, QueueOf(d, a), s).0;
    }
  }

  /** After the last of several passes every queue is what a visit left. */
  lemma {:induction false} LastPassVisitsAll<S(!new)>(
    env: Surroundings<S>, clients: AccountId -> Option<Reason>, spare: Id, n: nat, d: Document, s: S, a: AccountId)
    requires AllUnique(d) && n > 0
    ensures exists q :: Unique(q) && (n == 1 ==> q == QueueOf(d, a))
                        && VisitedOnce(env, clients(a), spare, q, QueueOf(AllPasses(env, clients, spare, n, d, s).0, a))
    decreases n
  {
    var (d', s') := AllVisited(env, clients, spare, Ascending(d.Keys), d, s);
    if n == 1 {
      PassVisitsAll(env, clients, spare, d, s, a);
      assert AllPasses(env, clients, spare, 1, d, s) == AllPasses(env, clients, spare, 0, d', s') == (d', s');
    } else {
      LastPassVisitsAll(env, clients, spare, n - 1, d', s', a);
    }
  }

  ghost predicate EachVisitedOnce<S(!new)>(
    env: Surroundings<S>, clients: AccountId -> Option<Reason>, spare: Id, before: Document, after: Document)
    requires AllUnique(before)
  {
    forall a :: VisitedOnce(env, clients(a), spare, QueueOf(before, a), QueueOf(after, a))
  }

  lemma SinglePassVisitsAll<S(!new)>(
    env: Surroundings<S>, clients: AccountId -> Option<Reason>, spare: Id, n: nat, d: Document, s: S)
    requires AllUnique(d)
    ensures n == 1 ==> EachVisitedOnce(env, clients, spare, d, AllPasses(env, clients, spare, n, d, s).0)
  {
    forall a | n == 1
      ensures VisitedOnce(env, clients(a), spare, QueueOf(d, a),
                          QueueOf(AllPasses(env, clients, spare, n, d, s).0, a))
    {
      LastPassVisitsAll(env, clients, spare, n, d, s, a);
    }
  }

  /** With a client, a visit drains the queue: no command is left that is ready, unblocked and unattempted. */
  lemma VisitLeavesNothing<S(!new)>(env: Surroundings<S>, spare: Id, q: seq<Command>, after: seq<Command>)
    requires Unique(q) && VisitedOnce(env, None, spare, q, after)
    ensures exists s :: after == Drained(env, Pass(q, {}, s, [])).queue
                        && Picked(env, Drained(env, Pass(q, {}, s, []))).None?
  {
    var s :| after == Visited(env, None, spare, q, s).0;
    NothingRunnableLeft(env, Pass(q, {}, s, []));
  }

  function Least(accounts: set<AccountId>): (least: AccountId)
    requires accounts != {}
    ensures least in accounts && forall a | a in accounts :: least <= a
  {
    var some :| some in accounts;
    LeastBelow(accounts, some);
    var least :| least in accounts && forall a | a in accounts :: least <= a;
    least
  }

  lemma {:induction false} LeastBelow(accounts: set<AccountId>, a: AccountId)
    requires a in accounts
    ensures exists least :: least in accounts && forall b | b in accounts :: least <= b
    decreases a
  {
    if b :| b in accounts && b < a {
      LeastBelow(accounts, b);
    }
  }

  lemma WithQueueIs(d: Document, account: AccountId, q: seq<Command>)
    ensures QueueOf(WithQueue(d, account, q), account) == q
    ensures forall a | a != account :: QueueOf(WithQueue(d, account, q), a) == QueueOf(d, a)
    ensures WithQueue(d, account, q) == WithQueue(d, account, QueueOf(WithQueue(d, account, q), account))
  {
  }

  lemma OneIteration(
    known: map<Id, Command>, merged: seq<Command>, desired: seq<Command>, stored: seq<Command>, i: nat)
    requires i < |desired| && Unique(desired)
    requires forall id | id in known && id in Ids(desired) :: id in Ids(merged) <==> id in Ids(stored)
    ensures var c, next := desired[i], Adopt(known, merged, desired[i]);
            && AdoptAll(known, merged, desired[i..]) == AdoptAll(known, next, desired[i + 1..])
            && RemovedElsewhere(known, desired[i..], stored)
               == (if OpId(c) in known && OpId(c) !in Ids(merged) then [c] else [])
                  + RemovedElsewhere(known, desired[i + 1..], stored)
            && forall id | id in known && id in Ids(desired) :: id in Ids(next) <==> id in Ids(stored)
  {
    var c := desired[i];
    hide Unique, Put, MapOf;
    MemberInMap(desired, c);
    PutIs(merged, c);
    assert desired[i..][0] == c && desired[i..][1..] == desired[i + 1..];
  }

  function NormalizeAll(q: seq<Command>, account: AccountId): seq<Command> {
    if q == [] then [] else [Normalize(q[0].(account := account))] + NormalizeAll(q[1..], account)
  }

  lemma {:induction false} NormalizeAllIs(q: seq<Command>, account: AccountId)
    ensures Ids(NormalizeAll(q, account)) == Ids(q)
    ensures Unique(q) ==> Unique(NormalizeAll(q, account))
  {
    if q != [] {
      NormalizeAllIs(q[1..], account);
    }
  }

  /** How projecting a restored command ended. */
  datatype Projection = Fine | BecameConflicted(freshCopy: Id) | Threw(error: Reason)

  function ReappliedCopy(c: Command, project: Command -> Projection): Command {
    if c.status in {Some(Staged), Some(Conflicted), Some(Failed)} then c
    else
      match project(c)
      case Fine => if c.status == Some(Applying) then c.(status := Some(Pending), lastError := None) else c
      case BecameConflicted(freshCopy) => RestoredConflict(freshCopy).Edit(c)
      case Threw(error) => MarkFailed(c, error)
  }

  function Reapplied(q: seq<Command>, project: Command -> Projection): seq<Command> {
    if q == [] then [] else [ReappliedCopy(q[0], project)] + Reapplied(q[1..], project)
  }

  /** The commands that projecting them again found in conflict. */
  function ConflictsOf(q: seq<Command>, project: Command -> Projection): seq<Command> {
    if q == [] then []
    else
      var d := ReappliedCopy(q[0], project);
      (if d.status == Some(Conflicted) && q[0].status != Some(Conflicted) then [d] else [])
        + ConflictsOf(q[1..], project)
  }

  lemma {:induction false} ReappliedIs(q: seq<Command>, project: Command -> Projection)
    requires Unique(q)
    ensures Unique(Reapplied(q, project)) && Ids(Reapplied(q, project)) == Ids(q)
  {
    if q != [] {
      ReappliedIs(q[1..], project);
    }
  }

  /** The loop of restore over the commands of one account. */
  method ReapplyAll(q: seq<Command>, project: Command -> Projection)
    returns (local: seq<Command>, conflicts: seq<Command>, changed: bool)
    ensures local == Reapplied(q, project) && conflicts == ConflictsOf(q, project)
    ensures changed == (local != q)
  {
    local, conflicts, changed := [], [], false;
    for i := 0 to |q|
      invariant |local| == i && local + Reapplied(q[i..], project) == Reapplied(q, project)
      invariant conflicts + ConflictsOf(q[i..], project) == ConflictsOf(q, project)
      invariant changed == (local != q[..i])
    {
      ReapplyStep(q, i, project);
      hide Reapplied, ConflictsOf, ReappliedCopy;
      var c, d := q[i], ReappliedCopy(q[i], project);
      AppendDiffers(local, d, q[..i], c);
      assert q[..i + 1] == q[..i] + [c];
      var found := if d.status == Some(Conflicted) && c.status != Some(Conflicted) then [d] else [];
      Associative(conflicts, found, ConflictsOf(q[i + 1..], project));
      Associative(local, [d], Reapplied(q[i + 1..], project));
      conflicts, local, changed := conflicts + found, local + [d], changed || d != c;
    }
    assert q[..|q|] == q;
  }

  lemma Associative<T>(a: seq<T>, b: seq<T>, c: seq<T>)
    ensures a + (b + c) == (a + b) + c
  {
  }

  lemma AppendDiffers<T>(p: seq<T>, x: T, q: seq<T>, y: T)
    requires |p| == |q|
    ensures p + [x] == q + [y] <==> p == q && x == y
  {
    if p + [x] == q + [y] {
      assert p == (p + [x])[..|p|] && q == (q + [y])[..|q|];
      assert x == (p + [x])[|p|] && y == (q + [y])[|q|];
    }
  }

  lemma ReapplyStep(q: seq<Command>, i: nat, project: Command -> Projection)
    requires i < |q|
    ensures var c, d := q[i], ReappliedCopy(q[i], project);
            && Reapplied(q[i..], project) == [d] + Reapplied(q[i + 1..], project)
            && ConflictsOf(q[i..], project)
               == (if d.status == Some(Conflicted) && c.status != Some(Conflicted) then [d] else [])
                  + ConflictsOf(q[i + 1..], project)
  {
    assert q[i..][0] == q[i] && q[i..][1..] == q[i + 1..];
  }

  // ---------------------------------------------------------------------------
  // Going through all accounts
  // ---------------------------------------------------------------------------

  /** A local change of one queue, if there is one. */
  type Change = seq<Command> -> Option<seq<Command>>

  function ClaimedLocal(q: seq<Command>, claimId: Id, expiresAt: Time, now: Time): Option<seq<Command>> {
    var edit := TakeClaim(claimId, expiresAt, now);
    if Claims(q, edit) == [] then None else Some(AllClaimed(q, edit))
  }

  function ReappliedLocal(q: seq<Command>, project: Command -> Projection): Option<seq<Command>> {
    if Reapplied(q, project) == q then None else Some(Reapplied(q, project))
  }

  /** One account after its local change, if any, was persisted. */
  ghost predicate MergedAt(
    q0: Document, p0: Persisted, d0: Document, queues: Document, document: Document, local: Option<seq<Command>>,
    a: AccountId)
  {
    if local.None? then QueueOf(queues, a) == QueueOf(q0, a) && QueueOf(document, a) == QueueOf(d0, a)
    else
      && QueueOf(queues, a) == Merge(KnownOf(p0, a), local.value, QueueOf(d0, a))
      && QueueOf(document, a) == QueueOf(queues, a)
  }

  ghost predicate AllMerged(
    q0: Document, p0: Persisted, d0: Document, queues: Document, document: Document, change: Change)
  {
    forall a :: MergedAt(q0, p0, d0, queues, document, change(QueueOf(q0, a)), a)
  }

  ghost predicate Untouched(
    q0: Document, p0: Persisted, d0: Document, q: Document, p: Persisted, d: Document, a: AccountId)
  {
    && QueueOf(q, a) == QueueOf(q0, a) && KnownOf(p, a) == KnownOf(p0, a)
    && QueueOf(d, a) == QueueOf(d0, a)
  }

  /** The accounts in rest are still to come, all others are done. */
  ghost predicate Progress(
    q0: Document, p0: Persisted, d0: Document, q: Document, p: Persisted, d: Document, rest: set<AccountId>,
    change: Change)
  {
    forall a ::
      if a in rest then Untouched(q0, p0, d0, q, p, d, a)
      else MergedAt(q0, p0, d0, q, d, change(QueueOf(q0, a)), a)
  }

  lemma ProgressStarts(q0: Document, p0: Persisted, d0: Document, change: Change)
    requires change([]) == None
    ensures Progress(q0, p0, d0, q0, p0, d0, q0.Keys, change)
  {
  }

  lemma ProgressAt(
    q0: Document, p0: Persisted, d0: Document, q: Document, p: Persisted, d: Document, rest: set<AccountId>,
    change: Change, a: AccountId)
    requires Progress(q0, p0, d0, q, p, d, rest, change) && a in rest
    ensures Untouched(q0, p0, d0, q, p, d, a)
  {
  }

  lemma ProgressStep(
    q0: Document, p0: Persisted, d0: Document, q1: Document, p1: Persisted, d1: Document,
    q2: Document, p2: Persisted, d2: Document, rest: set<AccountId>, change: Change, account: AccountId)
    requires Progress(q0, p0, d0, q1, p1, d1, rest, change) && account in rest
    requires MergedAt(q1, p1, d1, q2, d2, change(QueueOf(q1, account)), account)
    requires OnlyDiffersAt(q1, p1, q2, p2, account)
    requires forall a | a != account :: QueueOf(d2, a) == QueueOf(d1, a)
    ensures Progress(q0, p0, d0, q2, p2, d2, rest - {account}, change)
  {
    hide Merge, QueueOf, KnownOf;
    ProgressAt(q0, p0, d0, q1, p1, d1, rest, change, account);
    forall a | a != account
      ensures QueueOf(q2, a) == QueueOf(q1, a) && KnownOf(p2, a) == KnownOf(p1, a)
    {
    }
  }

  lemma ProgressEnds(
    q0: Document, p0: Persisted, d0: Document, q: Document, p: Persisted, d: Document, change: Change)
    requires Progress(q0, p0, d0, q, p, d, {}, change)
    ensures AllMerged(q0, p0, d0, q, d, change)
  {
    hide Merge;
  }

  /** How far restore has come: accounts still in rest are not loaded. */
  ghost predicate Restored(d: Document, queues: Document, persisted: Persisted, rest: set<AccountId>, a: AccountId) {
    if a in rest then a !in queues && a !in persisted
    else
      && QueueOf(queues, a) == SortByTime(NormalizeAll(QueueOf(d, a), a))
      && KnownOf(persisted, a) == MapOf(QueueOf(d, a))
  }

  /** Nothing in memory: the merge drops what was known and keeps the rest. */
  lemma ClearIsWithout(known: map<Id, Command>, stored: seq<Command>)
    requires Unique(stored) && Sorted(stored)
    ensures Merge(known, [], stored) == Without(stored, known.Keys)
  {
    MergeIsOverlay(known, [], stored);
    WithoutIs(stored, known.Keys);
    var kept := Without(stored, known.Keys);
    assert known.Keys - Ids([]) == known.Keys;
    OverlayNothing(known, kept);
    WithoutSorted(stored, known.Keys);
    assert kept + [] == kept;
    SortIs(kept);
  }

  /** The place of the first active command of an entity, or the length of the queue. */
  function FindActive(q: seq<Command>, entity: EntityId): (i: nat)
    ensures i <= |q|
    ensures i < |q| ==> FirstActive(q, entity) == Some(q[i])
    ensures i == |q| ==> FirstActive(q, entity) == None
  {
    if q == [] || (q[0].entity == entity && IsActive(q[0])) then 0 else 1 + FindActive(q[1..], entity)
  }

  lemma {:induction false} ChainAt(
    q: seq<Command>, i: nat, entity: EntityId, version: Version, freshKey: Id, freshCopy: Id)
    requires i == FindActive(q, entity) < |q|
    ensures q[i := RebaseChained(q[i], version, freshKey, freshCopy)] == Chain(q, entity, version, freshKey, freshCopy)
  {
    var d := RebaseChained(q[i], version, freshKey, freshCopy);
    if i > 0 {
      ChainAt(q[1..], i - 1, entity, version, freshKey, freshCopy);
      UpdateTail(q, i, d);
    }
  }

  /** With memory and storage equal, every compare-and-swap succeeds. */
  lemma {:induction false} SwapAllSelf(q: seq<Command>, seen: map<Id, Command>, changes: map<Id, Command>)
    requires Unique(q) && forall id | id in MapOf(q) :: id in seen && seen[id] == MapOf(q)[id]
    ensures SwapAll(q, seen, changes) == Edited(q, changes)
  {
    if q != [] {
      assert forall id | id in MapOf(q[1..]) :: MapOf(q)[id] == MapOf(q[1..])[id];
      SwapAllSelf(q[1..], seen, changes);
      assert seen[OpId(q[0])] == MapOf(q)[OpId(q[0])];
    }
  }

  /** A queue after an edit of one command, or of none, and the persist pass that follows. */
  ghost predicate EditPersisted(
    known: map<Id, Command>, queue: seq<Command>, stored: seq<Command>, d: Option<Command>, after: seq<Command>)
  {
    match d
    case None => after == Merge(known, queue, stored)
    case Some(c) =>
      && after == Merge(known, Replaced(queue, c), stored)
      && (known == MapOf(queue) ==> after == SwapAll(stored, known, map[OpId(c) := c]))
  }

  predicate CanTakePlace(q: seq<Command>, d: Command) {
    OpId(d) in Ids(q) && d.timestamp == MapOf(q)[OpId(d)].timestamp
  }

  datatype Claim = Claim(id: Id, expiresAt: Time)

  /** The command as enqueue stores it. */
  function Prepared(c: Command, hasProjection: bool): Command {
    if c.status in {Some(Conflicted), Some(Failed)} then Normalize(c)
    else Normalize(c.(status := Some(if hasProjection then Applying else Pending)))
  }

  /** The command as stage stores it. */
  function StagedCopy(c: Command, claim: Option<Claim>): Command {
    Normalize(c.(status := Some(Staged),
                 claimId := if claim.Some? then Some(claim.value.id) else None,
                 claimExpiresAt := if claim.Some? then Some(claim.value.expiresAt) else None))
  }

  /**
   * Enqueue changes nothing but ids that are missing and the status: a command that is conflicted or failed stays
   * so, any other waits for its projection if there is one.
   */
  lemma PreparedIs(c: Command, hasProjection: bool)
    ensures var d := Prepared(c, hasProjection);
            && IsNormal(d) && OpId(d) == OpId(c) && Key(d) == Key(c)
            && d == c.(operationId := Some(OpId(c)), attemptId := Some(Key(c)), status := d.status)
            && d.status == (if c.status == Some(Conflicted) || c.status == Some(Failed) then c.status
                            else if hasProjection then Some(Applying) else Some(Pending))
            && (IsActive(d) ==> IsReady(d.(nextAttemptAt := None), 0) == !hasProjection)
  {
    NormalizeIs(c.(status := Prepared(c, hasProjection).status));
  }

  /** Stage stores the command staged, under the claim handed in, or free for anybody to claim. */
  lemma StagedCopyIs(c: Command, claim: Option<Claim>, now: Time)
    ensures var d := StagedCopy(c, claim);
            && IsNormal(d) && OpId(d) == OpId(c) && Key(d) == Key(c) && d.status == Some(Staged)
            && d == c.(operationId := Some(OpId(c)), attemptId := Some(Key(c)), status := d.status,
                       claimId := d.claimId, claimExpiresAt := d.claimExpiresAt)
            && (claim.Some? ==> HeldBy(d, claim.value.id) && d.claimExpiresAt == Some(claim.value.expiresAt))
            && (claim.None? ==> Claimable(d, now) && d.claimId == None && d.claimExpiresAt == None)
  {
  }

  /** Claiming touches the free and expired ones only, and returns exactly those, in queue order. */
  lemma {:induction false} ClaimedAt(q: seq<Command>, edit: LocalEdit)
    requires edit.TakeClaim?
    ensures |AllClaimed(q, edit)| == |q|
    ensures forall i | 0 <= i < |q| ::
              AllClaimed(q, edit)[i] == if !Claimable(q[i], edit.now) then q[i]
                                        else q[i].(claimId := Some(edit.claimId),
                                                   claimExpiresAt := Some(edit.expiresAt))
    ensures forall d :: d in Claims(q, edit) <==> exists i :: 0 <= i < |q| && Claimable(q[i], edit.now)
                                                             && d == AllClaimed(q, edit)[i]
  {
    if q != [] {
      ClaimedAt(q[1..], edit);
      forall d
        ensures d in Claims(q, edit) <==> exists i :: 0 <= i < |q| && Claimable(q[i], edit.now)
                                                     && d == AllClaimed(q, edit)[i]
      {
        if d in Claims(q[1..], edit) {
          var i :| 0 <= i < |q[1..]| && Claimable(q[1..][i], edit.now) && d == AllClaimed(q[1..], edit)[i];
          assert Claimable(q[i + 1], edit.now) && d == AllClaimed(q, edit)[i + 1];
        } else if edit.Applies(q[0]) && d == edit.Edit(q[0]) {
          assert Claimable(q[0], edit.now) && d == AllClaimed(q, edit)[0];
        }
        forall i | 0 < i < |q| && Claimable(q[i], edit.now) && d == AllClaimed(q, edit)[i]
          ensures d in Claims(q, edit)
        {
          assert Claimable(q[1..][i - 1], edit.now) && d == AllClaimed(q[1..], edit)[i - 1];
        }
      }
    }
  }

  /** Nothing is persisted exactly if there is nothing to claim. */
  lemma ClaimsPersistedIff(q: seq<Command>, claimId: Id, expiresAt: Time, now: Time)
    ensures var local := ClaimedLocal(q, claimId, expiresAt, now);
            && (local.None? <==> forall i | 0 <= i < |q| :: !Claimable(q[i], now))
            && (local.Some? ==> local.value == AllClaimed(q, TakeClaim(claimId, expiresAt, now)))
  {
    var edit := TakeClaim(claimId, expiresAt, now);
    ClaimedAt(q, edit);
    hide Claims, AllClaimed, Claimable;
    if Claims(q, edit) != [] {
      assert Claims(q, edit)[0] in Claims(q, edit);
    }
    forall i | 0 <= i < |q| && Claimable(q[i], now) ensures Claims(q, edit) != [] {
      assert AllClaimed(q, edit)[i] in Claims(q, edit);
    }
  }

  /** Nothing is persisted exactly if projecting again leaves every command as it is. */
  lemma ReappliedPersistedIff(q: seq<Command>, project: Command -> Projection)
    ensures var local := ReappliedLocal(q, project);
            && (local.None? <==> forall i | 0 <= i < |q| :: ProjectedAgain(q[i], q[i], project))
            && (local.Some? ==> local.value == Reapplied(q, project))
  {
    ReappliedAt(q, project);
    hide Reapplied, ConflictsOf, ProjectedAgain;
    forall i | 0 <= i < |q| && ProjectedAgain(q[i], q[i], project) ensures Reapplied(q, project)[i] == q[i] {
      OneProjection(q[i], q[i], Reapplied(q, project)[i], project);
    }
  }

  lemma OneProjection(c: Command, d: Command, e: Command, project: Command -> Projection)
    requires ProjectedAgain(c, d, project) && ProjectedAgain(c, e, project)
    ensures d == e
  {
  }

  lemma {:induction false} ClaimsConcat(p: seq<Command>, q: seq<Command>, edit: LocalEdit)
    requires edit.TakeClaim?
    ensures Claims(p + q, edit) == Claims(p, edit) + Claims(q, edit)
  {
    if p == [] {
      assert p + q == q;
    } else {
      assert (p + q)[1..] == p[1..] + q;
      ClaimsConcat(p[1..], q, edit);
    }
  }

  lemma {:induction false} ConflictsConcat(p: seq<Command>, q: seq<Command>, project: Command -> Projection)
    ensures ConflictsOf(p + q, project) == ConflictsOf(p, project) + ConflictsOf(q, project)
  {
    if p == [] {
      assert p + q == q;
    } else {
      assert (p + q)[1..] == p[1..] + q;
      ConflictsConcat(p[1..], q, project);
    }
  }

  /** What projecting a restored command again comes to; staged and terminal ones are not projected. */
  ghost predicate ProjectedAgain(c: Command, d: Command, project: Command -> Projection) {
    if c.status == Some(Staged) || !IsActive(c) then d == c
    else
      match project(c)
      case Fine =>
        if c.status == Some(Applying) then d == c.(status := Some(Pending), lastError := None) else d == c
      case BecameConflicted(copy) =>
        d == c.(status := Some(Conflicted),
                conflictCopyId := if c.conflictCopyId.Some? then c.conflictCopyId else Some(copy))
      case Threw(error) => d == c.(status := Some(Failed), lastError := Some(error))
  }

  /** Restoring projects every command in its place, and returns exactly those found in conflict. */
  lemma {:induction false} ReappliedAt(q: seq<Command>, project: Command -> Projection)
    ensures |Reapplied(q, project)| == |q|
    ensures forall i | 0 <= i < |q| :: ProjectedAgain(q[i], Reapplied(q, project)[i], project)
    ensures forall d :: d in ConflictsOf(q, project)
                        <==> exists i :: 0 <= i < |q| && NewConflict(q[i], d) && d == Reapplied(q, project)[i]
  {
    if q != [] {
      ReappliedAt(q[1..], project);
      StatesAre(q[0], 0);
      hide IsActive;
      forall d
        ensures d in ConflictsOf(q, project)
                <==> exists i :: 0 <= i < |q| && NewConflict(q[i], d) && d == Reapplied(q, project)[i]
      {
        if d in ConflictsOf(q[1..], project) {
          var i :| 0 <= i < |q[1..]| && NewConflict(q[1..][i], d) && d == Reapplied(q[1..], project)[i];
          assert NewConflict(q[i + 1], d) && d == Reapplied(q, project)[i + 1];
        } else if d == ReappliedCopy(q[0], project) && NewConflict(q[0], d) {
          assert NewConflict(q[0], d) && d == Reapplied(q, project)[0];
        }
        forall i | 0 < i < |q| && NewConflict(q[i], d) && d == Reapplied(q, project)[i]
          ensures d in ConflictsOf(q, project)
        {
          assert NewConflict(q[1..][i - 1], d) && d == Reapplied(q[1..], project)[i - 1];
        }
      }
    }
  }

  predicate NewConflict(c: Command, d: Command) {
    d.status == Some(Conflicted) && c.status != Some(Conflicted)
  }

  /** Loading fills in what old documents miss and the account the queue is stored under, in place. */
  lemma {:induction false} NormalizedAt(q: seq<Command>, account: AccountId)
    ensures |NormalizeAll(q, account)| == |q|
    ensures forall i | 0 <= i < |q| ::
              var d := NormalizeAll(q, account)[i];
              && IsNormal(d) && OpId(d) == OpId(q[i]) && Key(d) == Key(q[i]) && d.account == account
              && d == q[i].(account := account, operationId := Some(OpId(q[i])), attemptId := Some(Key(q[i])),
                            status := if q[i].status.Some? then q[i].status else Some(Pending))
  {
    if q != [] {
      NormalizedAt(q[1..], account);
      NormalizeIs(q[0].(account := account));
    }
  }

  /** The claimed copies, in queue order. */
  function Claims(q: seq<Command>, edit: LocalEdit): seq<Command>
    requires edit.TakeClaim?
  {
    if q == [] then []
    else (if edit.Applies(q[0]) then [edit.Edit(q[0])] else []) + Claims(q[1..], edit)
  }

  function AllClaimed(q: seq<Command>, edit: LocalEdit): seq<Command>
    requires edit.TakeClaim?
  {
    if q == [] then []
    else [if edit.Applies(q[0]) then edit.Edit(q[0]) else q[0]] + AllClaimed(q[1..], edit)
  }

  /** The loop over the commands of one queue. */
  method ClaimAll(queue: seq<Command>, edit: LocalEdit) returns (local: seq<Command>, claimed: seq<Command>)
    requires edit.TakeClaim?
    ensures local == AllClaimed(queue, edit) && claimed == Claims(queue, edit)
  {
    local, claimed := [], [];
    for i := 0 to |queue|
      invariant local + AllClaimed(queue[i..], edit) == AllClaimed(queue, edit)
      invariant claimed + Claims(queue[i..], edit) == Claims(queue, edit)
    {
      ClaimStep(queue, i, edit);
      hide AllClaimed, Claims;
      var c := queue[i];
      if edit.Applies(c) {
        c := edit.Edit(c);
        claimed := claimed + [c];
      }
      local := local + [c];
    }
  }

  lemma ClaimStep(queue: seq<Command>, i: nat, edit: LocalEdit)
    requires edit.TakeClaim? && i < |queue|
    ensures var c := queue[i];
            && AllClaimed(queue[i..], edit)
               == [if edit.Applies(c) then edit.Edit(c) else c] + AllClaimed(queue[i + 1..], edit)
            && Claims(queue[i..], edit)
               == (if edit.Applies(c) then [edit.Edit(c)] else []) + Claims(queue[i + 1..], edit)
  {
    assert queue[i..][0] == queue[i] && queue[i..][1..] == queue[i + 1..];
  }

  lemma {:induction false} AllClaimedIs(q: seq<Command>, edit: LocalEdit)
    requires edit.TakeClaim? && Unique(q)
    ensures Unique(AllClaimed(q, edit)) && Ids(AllClaimed(q, edit)) == Ids(q)
  {
    if q != [] {
      AllClaimedIs(q[1..], edit);
    }
  }

  /** The place of an operation in a queue that holds it. */
  function Position(q: seq<Command>, id: Id): (i: nat)
    requires id in Ids(q)
    ensures i < |q| && OpId(q[i]) == id
  {
    if OpId(q[0]) == id then 0 else 1 + Position(q[1..], id)
  }

  lemma {:induction false} EditedAt(q: seq<Command>, i: nat, d: Command)
    requires Unique(q) && i < |q| && OpId(q[i]) == OpId(d)
    ensures q[i := d] == Edited(q, map[OpId(d) := d])
  {
    if i == 0 {
      ReplacedAbsent(q[1..], d);
    } else {
      assert q[1..][i - 1] == q[i];
      IdAt(q[1..], i - 1);
      EditedAt(q[1..], i - 1, d);
      UpdateTail(q, i, d);
    }
  }

  lemma UpdateTail(q: seq<Command>, i: nat, d: Command)
    requires 0 < i < |q|
    ensures q[i := d] == [q[0]] + q[1..][i - 1 := d]
  {
  }

  lemma {:induction false} IdAt(q: seq<Command>, i: nat)
    requires i < |q|
    ensures OpId(q[i]) in Ids(q)
  {
    if i > 0 {
      IdAt(q[1..], i - 1);
    }
  }

  /** The updater of the persist pass, run against whatever is stored at that moment. */
  method Reconcile(known: map<Id, Command>, queue: seq<Command>, stored: seq<Command>)
    returns (next: seq<Command>, elsewhere: seq<Command>)
    requires Unique(stored)
    ensures next == Merge(known, queue, stored)
    ensures elsewhere == RemovedElsewhere(known, FromList(queue), stored)
  {
    var desired := FromList(queue);
    FromListIs(queue);
    FromListIs(stored);
    var kept := DropRemovedHere(known.Keys, Ids(desired), FromList(stored));
    WithoutIs(stored, known.Keys - Ids(desired));
    var merged;
    merged, elsewhere := AdoptDesired(known, kept, desired, stored);
    next := SortByTime(merged);
  }

  /** The loop over the commands in memory. */
  method AdoptDesired(
    known: map<Id, Command>, kept: seq<Command>, desired: seq<Command>, ghost stored: seq<Command>)
    returns (merged: seq<Command>, elsewhere: seq<Command>)
    requires Unique(desired)
    requires forall id | id in known && id in Ids(desired) :: id in Ids(kept) <==> id in Ids(stored)
    ensures merged == AdoptAll(known, kept, desired)
    ensures elsewhere == RemovedElsewhere(known, desired, stored)
  {
    hide AdoptAll, RemovedElsewhere, Unique, Put, MapOf;
    merged, elsewhere := kept, [];
    assert desired[0..] == desired;
    for i := 0 to |desired|
      invariant AdoptAll(known, merged, desired[i..]) == AdoptAll(known, kept, desired)
      invariant elsewhere + RemovedElsewhere(known, desired[i..], stored) == RemovedElsewhere(known, desired, stored)
      invariant forall id | id in known && id in Ids(desired) :: id in Ids(merged) <==> id in Ids(stored)
    {
      OneIteration(known, merged, desired, stored, i);
      var c := desired[i];
      var current := Get(MapOf(merged), OpId(c));
      if OpId(c) in known && current.None? {
        elsewhere := elsewhere + [c];
      } else if !(current.Some? && OpId(c) in known && current.value != known[OpId(c)]) {
        merged := Put(merged, c);
      }
    }
    NoIterationLeft(known, merged, desired, stored);
  }

  lemma NoIterationLeft(known: map<Id, Command>, merged: seq<Command>, desired: seq<Command>, stored: seq<Command>)
    ensures AdoptAll(known, merged, desired[|desired|..]) == merged
    ensures RemovedElsewhere(known, desired[|desired|..], stored) == []
  {
  }

  /** Deletes the persisted operations that are no longer in memory. */
  method DropRemovedHere(known: set<Id>, desired: set<Id>, stored: seq<Command>) returns (kept: seq<Command>)
    requires Unique(stored)
    ensures kept == Without(stored, known - desired)
  {
    kept := stored;
    WithoutIs(stored, {});
    var rest := known;
    assert known - rest - desired == {};
    while rest != {}
      invariant rest <= known && kept == Without(stored, known - rest - desired)
      decreases |rest|
    {
      var id :| id in rest;
      ghost var gone := known - rest - desired;
      rest := rest - {id};
      if id !in desired {
        kept := Without(kept, {id});
        WithoutTwice(stored, gone, {id});
        assert known - rest - desired == gone + {id};
      } else {
        assert known - rest - desired == gone;
      }
    }
  }
}
