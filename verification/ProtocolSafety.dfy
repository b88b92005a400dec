/**
 * What holds in every state of every run, with any number of engines draining at once.
 */
module ProtocolSafety {
  import opened Options
  import opened Commands
  import opened Protocol
  import QueueSteps

  /** A copy of an issued command that some engine or the store holds. */
  ghost predicate Copy(w: World, id: Id, c: Command) {
    && OpId(c) == id && id in w.rank && id in w.born && IsNormal(c) && Follows(w.born[id], c)
    && Key(c) in w.minted && w.minted[Key(c)] == Minted(id, RequestOf(c))
  }

  /** Exactly the issued and not removed operations are stored. */
  ghost predicate Books(w: World) {
    && w.born.Keys == w.rank.Keys && w.current.Keys == w.rank.Keys
    && w.gone <= w.rank.Keys && w.stored.Keys == w.rank.Keys - w.gone
    && forall id | id in w.rank :: w.rank[id] < w.next && w.rank[id] in w.arrival && w.arrival[w.rank[id]] == id
  }

  ghost predicate StoreInv(w: World) {
    forall id | id in w.stored :: Copy(w, id, w.stored[id]) && id in w.current && w.current[id] == Key(w.stored[id])
  }

  /** What an engine holds was stored once: the stored copy, if any, follows it. */
  ghost predicate Holds(w: World, e: Engine) {
    && (forall id | id in e.seen :: Copy(w, id, e.seen[id]))
    && (forall id | id in e.seen && id in w.stored :: Follows(e.seen[id], w.stored[id]))
    && (e.inflight.Some? ==>
          var c := e.inflight.value;
          && Copy(w, OpId(c), c) && RequestOf(c) in w.net && Dispatchable(c)
          && (OpId(c) in w.stored ==> Follows(c, w.stored[OpId(c)])))
  }

  ghost predicate EngineInv(w: World) {
    forall e | e in w.engines :: Holds(w, w.engines[e])
  }

  /** Every key names one request of one operation; a sealed command never gets a second key. */
  ghost predicate KeyInv(w: World) {
    && (forall k | k in w.minted ::
          && w.minted[k].request.key == k && w.minted[k].op in w.rank
          && (w.minted[k].op in w.born && Pinned(w.born[w.minted[k].op]) ==> k == Key(w.born[w.minted[k].op])))
    && (forall r | r in w.net :: r.key in w.minted && w.minted[r.key].request == r)
    && (forall k | k in w.server.memory ::
          && w.server.memory[k].request.key == k && w.server.memory[k].request in w.net
          && (w.server.memory[k].outcome.Applied? ==>
                !Hopeless(w.server.memory[k].request) && w.server.memory[k].outcome.version > 0))
  }

  /** A command whose idempotency key can never change. */
  predicate Pinned(c: Command) {
    CarriesSealedCiphertext(c) && c.kind != CrossAccountMove
  }

  ghost predicate Inv(w: World) {
    Books(w) && StoreInv(w) && EngineInv(w) && KeyInv(w)
  }

  // ---------------------------------------------------------------------------
  // Preservation
  // ---------------------------------------------------------------------------

  /** A stored copy may replace another: it follows it, under the same key or the recorded one. */
  predicate Replaces(c: Command, d: Command, mint: Option<Command>) {
    Follows(c, d) && (SameAttempt(c, d) || mint == Some(d))
  }

  /** What a persist pass may store: what was there, some of it removed, some of it rewritten. */
  ghost predicate Evolves(w: World, stored: map<Id, Command>, mint: Option<Command>, removed: set<Id>) {
    && stored.Keys == w.stored.Keys - removed
    && removed <= w.rank.Keys
    && forall id | id in stored :: Replaces(w.stored[id], stored[id], mint)
  }

  /** A key may be recorded for a copy of an issued command, unless it names something else. */
  ghost predicate MayMint(w: World, d: Command) {
    && OpId(d) in w.rank && OpId(d) in w.born && Follows(w.born[OpId(d)], d)
    && (Key(d) in w.minted ==> w.minted[Key(d)] == Minted(OpId(d), RequestOf(d)))
  }

  ghost predicate CanCommit(
    w: World, stored: map<Id, Command>, mint: Option<Command>, removed: set<Id>)
  {
    Evolves(w, stored, mint, removed) && (mint.Some? ==> MayMint(w, mint.value))
  }

  lemma CommitBooks(
    w: World, e: nat, stored: map<Id, Command>, inflight: Option<Command>,
    mint: Option<Command>, removed: set<Id>, acked: set<Id>)
    requires Books(w) && Evolves(w, stored, mint, removed)
    ensures Books(Commit(w, e, stored, inflight, mint, removed, acked))
  {
    var v := Commit(w, e, stored, inflight, mint, removed, acked);
    assert v.stored.Keys == v.rank.Keys - v.gone;
    assert v.current.Keys == v.rank.Keys;
  }

  lemma CopyReplaced(w: World, v: World, id: Id, c: Command, d: Command, mint: Option<Command>)
    requires Copy(w, id, c) && Replaces(c, d, mint)
    requires v.rank == w.rank && v.born == w.born
    requires v.minted == (if mint.None? then w.minted
                          else w.minted[Key(mint.value) := Minted(OpId(mint.value), RequestOf(mint.value))])
    requires mint.Some? && Key(mint.value) in w.minted ==>
               w.minted[Key(mint.value)] == Minted(OpId(mint.value), RequestOf(mint.value))
    ensures Copy(v, id, d)
  {
    FollowsTransitive(w.born[id], c, d);
  }

  lemma CommitStore(
    w: World, e: nat, stored: map<Id, Command>, inflight: Option<Command>,
    mint: Option<Command>, removed: set<Id>, acked: set<Id>)
    requires StoreInv(w) && CanCommit(w, stored, mint, removed)
    ensures StoreInv(Commit(w, e, stored, inflight, mint, removed, acked))
  {
    hide Follows, RequestOf;
    var v := Commit(w, e, stored, inflight, mint, removed, acked);
    forall id | id in stored ensures Copy(v, id, stored[id]) {
      CopyReplaced(w, v, id, w.stored[id], stored[id], mint);
    }
  }

  lemma CommitKeys(
    w: World, e: nat, stored: map<Id, Command>, inflight: Option<Command>,
    mint: Option<Command>, removed: set<Id>, acked: set<Id>)
    requires KeyInv(w) && Books(w) && CanCommit(w, stored, mint, removed)
    ensures KeyInv(Commit(w, e, stored, inflight, mint, removed, acked))
  {
  }

  lemma CommitHolds(
    w: World, e: nat, stored: map<Id, Command>, inflight: Option<Command>,
    mint: Option<Command>, removed: set<Id>, acked: set<Id>, x: Engine)
    requires Books(w) && CanCommit(w, stored, mint, removed) && Holds(w, x)
    ensures Holds(Commit(w, e, stored, inflight, mint, removed, acked), x)
  {
    var v := Commit(w, e, stored, inflight, mint, removed, acked);
    forall id | id in x.seen
      ensures Copy(v, id, x.seen[id]) && (id in stored ==> Follows(x.seen[id], stored[id]))
    {
      assert Copy(w, id, x.seen[id]);
      if id in stored {
        assert Replaces(w.stored[id], stored[id], mint);
        FollowsTransitive(x.seen[id], w.stored[id], stored[id]);
      }
    }
    if x.inflight.Some? && OpId(x.inflight.value) in stored {
      var c := x.inflight.value;
      assert Replaces(w.stored[OpId(c)], stored[OpId(c)], mint);
      FollowsTransitive(c, w.stored[OpId(c)], stored[OpId(c)]);
    }
  }

  /** The engine that adopts what was just stored. */
  lemma AdoptedHolds(v: World, stored: map<Id, Command>, inflight: Option<Command>, was: Engine)
    requires StoreInv(v) && v.stored == stored
    requires inflight.Some? ==> inflight == was.inflight && Holds(v, was)
    ensures Holds(v, Engine(stored, inflight))
  {
  }

  lemma CommitEngines(
    w: World, e: nat, stored: map<Id, Command>, inflight: Option<Command>,
    mint: Option<Command>, removed: set<Id>, acked: set<Id>)
    requires Books(w) && EngineInv(w) && CanCommit(w, stored, mint, removed)
    requires inflight == None || (e in w.engines && inflight == w.engines[e].inflight)
    requires StoreInv(Commit(w, e, stored, inflight, mint, removed, acked))
    ensures EngineInv(Commit(w, e, stored, inflight, mint, removed, acked))
  {
    var v := Commit(w, e, stored, inflight, mint, removed, acked);
    forall x | x in v.engines ensures Holds(v, v.engines[x]) {
      var was := if x in w.engines then w.engines[x] else Engine(map[], None);
      CommitHolds(w, e, stored, inflight, mint, removed, acked, was);
      if x == e {
        AdoptedHolds(v, stored, inflight, was);
      }
    }
  }

  /** Any persist pass of this shape keeps the invariant. */
  lemma CommitKeepsInv(
    w: World, e: nat, stored: map<Id, Command>, inflight: Option<Command>,
    mint: Option<Command>, removed: set<Id>, acked: set<Id>)
    requires Inv(w) && CanCommit(w, stored, mint, removed)
    requires inflight == None || (e in w.engines && inflight == w.engines[e].inflight)
    ensures Inv(Commit(w, e, stored, inflight, mint, removed, acked))
  {
    CommitBooks(w, e, stored, inflight, mint, removed, acked);
    CommitStore(w, e, stored, inflight, mint, removed, acked);
    CommitKeys(w, e, stored, inflight, mint, removed, acked);
    CommitEngines(w, e, stored, inflight, mint, removed, acked);
  }

  /** A compare-and-swap of one copy for one that may replace it. */
  lemma SwapOneEvolves(w: World, e: nat, op: Id, d: Command)
    requires Books(w) && e in w.engines && op in w.engines[e].seen
    requires Follows(w.engines[e].seen[op], d)
    ensures Evolves(w, QueueSteps.Swap(w.stored, w.engines[e].seen, map[op := d]), Some(d), {})
  {
  }

  /** A rewritten copy keeps its attempt or has the fresh key. */
  lemma RewriteMayMint(w: World, op: Id, c: Command, d: Command, freshKey: Id)
    requires Copy(w, op, c) && freshKey !in w.minted
    requires Follows(c, d) && (SameAttempt(c, d) || Key(d) == freshKey)
    ensures MayMint(w, d)
  {
    FollowsTransitive(w.born[op], c, d);
  }

  lemma FailureKeepsOrMints(
    c: Command, reply: Reply, current: Authoritative, now: Time, freshKey: Id, freshCopy: Id)
    requires !reply.Accepted?
    ensures var d := AfterFailure(c, reply, current, now, freshKey, freshCopy);
            SameAttempt(c, d) || Key(d) == freshKey
  {
  }

  lemma FollowsSelf(c: Command)
    ensures Follows(c, c)
  {
  }

  lemma FollowsSelfEverywhere()
    ensures forall c :: Follows(c, c)
  {
  }

  lemma EnqueueKeepsCopies(w: World, a: Action, id: Id, c: Command)
    requires Books(w) && Enabled(w, a) && a.Enqueue? && Copy(w, id, c)
    ensures Copy(Next(w, a), id, c) && id != OpId(a.c)
  {
  }

  lemma EnqueueKeepsHolds(w: World, a: Action, x: Engine)
    requires Books(w) && Enabled(w, a) && a.Enqueue? && Holds(w, x)
    ensures Holds(Next(w, a), x)
  {
    hide Follows, RequestOf;
    forall id | id in x.seen ensures Copy(Next(w, a), id, x.seen[id]) && id != OpId(a.c) {
      EnqueueKeepsCopies(w, a, id, x.seen[id]);
    }
    if x.inflight.Some? {
      EnqueueKeepsCopies(w, a, OpId(x.inflight.value), x.inflight.value);
    }
  }

  lemma EnqueueKeepsBooks(w: World, a: Action)
    requires Books(w) && Enabled(w, a) && a.Enqueue?
    ensures Books(Next(w, a))
  {
    var v := Next(w, a);
    assert v.stored.Keys == v.rank.Keys - v.gone;
  }

  lemma EnqueuedCopy(w: World, a: Action)
    requires Enabled(w, a) && a.Enqueue?
    ensures Copy(Next(w, a), OpId(a.c), a.c)
  {
  }

  lemma EnqueueStores(w: World, a: Action)
    requires Enabled(w, a) && a.Enqueue?
    ensures Next(w, a).stored == w.stored[OpId(a.c) := a.c]
    ensures forall id | id in Next(w, a).stored ::
              id in Next(w, a).current && Next(w, a).current[id] == Key(Next(w, a).stored[id])
  {
  }

  lemma EnqueueKeepsStore(w: World, a: Action)
    requires Books(w) && StoreInv(w) && Enabled(w, a) && a.Enqueue?
    ensures StoreInv(Next(w, a))
  {
    hide Enabled, Next, Copy, Books;
    EnqueueStores(w, a);
    EnqueuedCopy(w, a);
    forall id | id in w.stored && id != OpId(a.c) ensures Copy(Next(w, a), id, w.stored[id]) {
      EnqueueKeepsCopies(w, a, id, w.stored[id]);
    }
  }

  lemma EnqueueKeepsKeys(w: World, a: Action)
    requires Books(w) && KeyInv(w) && Enabled(w, a) && a.Enqueue?
    ensures KeyInv(Next(w, a))
  {
  }

  lemma EnqueueKeepsEngines(w: World, a: Action)
    requires Books(w) && EngineInv(w) && Enabled(w, a) && a.Enqueue? && StoreInv(Next(w, a))
    ensures EngineInv(Next(w, a))
  {
    hide Follows, RequestOf;
    FollowsSelfEverywhere();
    var v := Next(w, a);
    forall x | x in v.engines ensures Holds(v, v.engines[x]) {
      EnqueueKeepsHolds(w, a, w.engines[x]);
    }
  }

  lemma EnqueueKeepsInv(w: World, a: Action)
    requires Inv(w) && Enabled(w, a) && a.Enqueue?
    ensures Inv(Next(w, a))
  {
    EnqueueKeepsBooks(w, a);
    EnqueueKeepsStore(w, a);
    EnqueueKeepsKeys(w, a);
    EnqueueKeepsEngines(w, a);
  }

  lemma HeldIsIssued(w: World, e: nat)
    requires EngineInv(w) && e in w.engines
    ensures w.engines[e].seen.Keys <= w.rank.Keys
    ensures forall id | id in w.engines[e].seen :: Copy(w, id, w.engines[e].seen[id])
    ensures w.engines[e].inflight.Some? ==> Copy(w, OpId(w.engines[e].inflight.value), w.engines[e].inflight.value)
  {
    assert Holds(w, w.engines[e]);
  }

  lemma EditEvolves(w: World, a: Action)
    requires Enabled(w, a) && a.Edit?
    ensures Evolves(w, StoredBy(w, a), None, {})
  {
    var seen, stored := w.engines[a.e].seen, StoredBy(w, a);
    forall id | id in stored ensures Replaces(w.stored[id], stored[id], None) {
      if id in a.edits && seen[id] == w.stored[id] {
        LocalEditFollows(seen[id], a.edits[id]);
      }
    }
  }

  lemma RemovalEvolves(w: World, removed: set<Id>)
    requires removed <= w.rank.Keys
    ensures Evolves(w, w.stored - removed, None, removed)
    ensures removed == {} ==> w.stored - removed == w.stored
  {
  }

  lemma AckCanCommit(w: World, a: Action)
    requires Books(w) && StoreInv(w) && EngineInv(w) && Enabled(w, a) && a.Ack?
    ensures CanCommit(w, StoredBy(w, a), RewrittenBy(w, a), RemovedBy(w, a))
  {
    HeldIsIssued(w, a.e);
    if a.chained.Some? {
      var f, d := a.chained.value, ChainedCopy(w, a);
      RewriteMayMint(w, f, w.stored[f], d, a.freshKey);
      assert StoredBy(w, a).Keys == w.stored.Keys - RemovedBy(w, a);
    } else {
      RemovalEvolves(w, RemovedBy(w, a));
    }
  }

  /** A rewritten copy of a held command. */
  lemma RewriteCanCommit(w: World, e: nat, op: Id, d: Command, freshKey: Id)
    requires Books(w) && EngineInv(w) && e in w.engines && op in w.engines[e].seen && freshKey !in w.minted
    requires var c := w.engines[e].seen[op];
             Follows(c, d) && (SameAttempt(c, d) || Key(d) == freshKey)
    ensures CanCommit(w, QueueSteps.Swap(w.stored, w.engines[e].seen, map[op := d]), Some(d), {})
  {
    HeldIsIssued(w, e);
    RewriteMayMint(w, op, w.engines[e].seen[op], d, freshKey);
    SwapOneEvolves(w, e, op, d);
  }

  lemma FailCanCommit(w: World, a: Action)
    requires Books(w) && EngineInv(w) && Enabled(w, a) && a.Fail?
    ensures CanCommit(w, StoredBy(w, a), RewrittenBy(w, a), RemovedBy(w, a))
  {
    if a.attached {
      var c, d := w.engines[a.e].inflight.value, FailedCopy(w, a);
      FailureUsesEffort(c, a.reply, a.current, a.now, a.freshKey, a.freshCopy);
      FailureKeepsOrMints(c, a.reply, a.current, a.now, a.freshKey, a.freshCopy);
      RewriteCanCommit(w, a.e, OpId(c), d, a.freshKey);
    } else {
      RemovalEvolves(w, {});
    }
  }

  lemma MisfireCanCommit(w: World, a: Action)
    requires Books(w) && EngineInv(w) && Enabled(w, a) && a.Misfire?
    ensures CanCommit(w, StoredBy(w, a), RewrittenBy(w, a), RemovedBy(w, a))
  {
    var c := w.engines[a.e].seen[a.op];
    FailureUsesEffort(c, Unreached(a.error), Unavailable(a.error), a.now, a.freshKey, a.freshKey);
    RewriteCanCommit(w, a.e, a.op, RewrittenBy(w, a).value, a.freshKey);
  }

  /** Every persist pass stores only commands that follow the stored ones. */
  lemma PersistCanCommit(w: World, a: Action)
    requires Inv(w) && Enabled(w, a) && Persists(a)
    ensures CanCommit(w, StoredBy(w, a), RewrittenBy(w, a), RemovedBy(w, a))
  {
    if a.Edit? {
      EditEvolves(w, a);
    } else if a.Ack? {
      AckCanCommit(w, a);
    } else if a.Fail? {
      FailCanCommit(w, a);
    } else if a.Misfire? {
      MisfireCanCommit(w, a);
    } else {
      if !a.Restart? {
        HeldIsIssued(w, a.e);
      }
      RemovalEvolves(w, RemovedBy(w, a));
    }
  }

  lemma ServerKeepsInv(w: World, a: Action)
    requires Inv(w) && Enabled(w, a) && (a.Serve? || a.OtherDevice?)
    ensures Inv(Next(w, a))
  {
    ServerKeepsEngines(w, a);
  }

  lemma ServerKeepsEngines(w: World, a: Action)
    requires EngineInv(w) && Enabled(w, a) && (a.Serve? || a.OtherDevice? || a.Send?)
    ensures forall x | x in w.engines :: Holds(Next(w, a), w.engines[x])
  {
    forall x | x in w.engines ensures Holds(Next(w, a), w.engines[x]) {
      assert Holds(w, w.engines[x]);
    }
  }

  lemma SendKeepsInv(w: World, a: Action)
    requires Inv(w) && Enabled(w, a) && a.Send?
    ensures Inv(Next(w, a))
  {
    hide Follows, RequestOf, Holds, KeyInv, Runnable, Dispatchable;
    SendKeepsKeys(w, a);
    ServerKeepsEngines(w, a);
    SendHolds(w, a);
  }

  lemma SendHolds(w: World, a: Action)
    requires EngineInv(w) && Enabled(w, a) && a.Send?
    ensures Holds(Next(w, a), Next(w, a).engines[a.e])
  {
    assert Holds(w, w.engines[a.e]);
  }

  lemma SendKeepsKeys(w: World, a: Action)
    requires EngineInv(w) && KeyInv(w) && Enabled(w, a) && a.Send?
    ensures KeyInv(Next(w, a))
  {
    HeldIsIssued(w, a.e);
  }

  lemma StepKeepsInv(w: World, a: Action)
    requires Inv(w) && Enabled(w, a)
    ensures Inv(Next(w, a))
  {
    if a.Enqueue? {
      EnqueueKeepsInv(w, a);
    } else if a.Send? {
      SendKeepsInv(w, a);
    } else if a.Serve? || a.OtherDevice? {
      ServerKeepsInv(w, a);
    } else {
      PersistCanCommit(w, a);
      CommitKeepsInv(w, a.e, StoredBy(w, a), InflightAfter(w, a), RewrittenBy(w, a), RemovedBy(w, a),
                     if a.Ack? then RemovedBy(w, a) else {});
    }
  }

  lemma {:induction false} RunKeepsInv(w: World, actions: seq<Action>)
    requires Inv(w) && Runs(w, actions)
    ensures Inv(After(w, actions))
    decreases |actions|
  {
    if actions != [] {
      StepKeepsInv(w, actions[0]);
      RunKeepsInv(Next(w, actions[0]), actions[1..]);
    }
  }
}
