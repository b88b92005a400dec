/**
 * Commands are enqueued in time order. With one drainer, commands of one entity are sent and
 * acknowledged in the order they were enqueued, and the condition for exactly-once delivery holds by itself.
 * With several, the acknowledgements that find their command still active in the store come in that order.
 */
module EnqueueOrder {
  import opened Options
  import opened Commands
  import opened Protocol
  import opened ProtocolSafety
  import opened Delivery
  import opened ExactlyOnce

  /** The new command is not dated before a stored command of its entity. */
  ghost predicate InOrder(w: World, c: Command) {
    forall id | id in w.stored && w.stored[id].entity == c.entity :: w.stored[id].timestamp <= c.timestamp
  }

  ghost predicate Orderly(w: World, a: Action, d: nat) {
    SoleDrainer(a, d) && (a.Enqueue? ==> InOrder(w, a.c))
  }

  ghost predicate OrderlyRun(w: World, actions: seq<Action>, d: nat)
    requires Runs(w, actions)
    decreases |actions|
  {
    actions != [] ==>
      Orderly(w, actions[0], d) && OrderlyRun(Next(w, actions[0]), actions[1..], d)
  }

  ghost predicate Earlier(w: World, a: Id, b: Id) {
    && a in w.rank && b in w.rank && a in w.born && b in w.born
    && w.born[a].entity == w.born[b].entity && w.rank[a] < w.rank[b]
  }

  /** The drainer is done with this operation for good. */
  ghost predicate Settled(w: World, e: Engine, op: Id) {
    && (op in w.stored ==> !IsActive(w.stored[op]))
    && (op in e.seen ==> !IsActive(e.seen[op]))
    && (e.inflight.Some? ==> OpId(e.inflight.value) != op)
  }

  /** Once a command was sent, every earlier command of its entity is settled. */
  ghost predicate SentInOrder(w: World, e: Engine) {
    forall r, op | r in w.net && r.key in w.minted && Earlier(w, op, w.minted[r.key].op) :: Settled(w, e, op)
  }

  /** A snapshot that holds a command holds every earlier one that is still stored. */
  ghost predicate SnapshotClosed(w: World, e: Engine) {
    forall a, b | b in e.seen && a in w.stored && Earlier(w, a, b) :: a in e.seen
  }

  ghost predicate TimesInOrder(w: World, q: map<Id, Command>) {
    forall a, b | a in q && b in q && Earlier(w, a, b) :: q[a].timestamp <= q[b].timestamp
  }

  ghost predicate OrderInv(w: World, d: nat) {
    var e := Drainer(w, d);
    && OnlyDrainer(w, d) && SentInOrder(w, e) && SnapshotClosed(w, e)
    && TimesInOrder(w, w.stored) && TimesInOrder(w, e.seen)
  }

  // ---------------------------------------------------------------------------
  // Preservation, conjunct by conjunct
  // ---------------------------------------------------------------------------

  ghost predicate OrderStep(w: World, a: Action, d: nat) {
    Inv(w) && OrderInv(w, d) && Enabled(w, a) && Orderly(w, a, d)
  }

  lemma SentMeansSettled(w: World, e: Engine, r: Request, op: Id)
    requires SentInOrder(w, e) && r in w.net && r.key in w.minted && Earlier(w, op, w.minted[r.key].op)
    ensures Settled(w, e, op)
  {
  }

  /** A chained command was never sent: whatever was sent first is settled. */
  lemma ChainedWasNeverSent(w: World, a: Action, d: nat)
    requires OrderStep(w, a, d) && a.Ack? && a.chained.Some?
    ensures var k := Key(w.stored[a.chained.value]);
            k in w.minted && w.minted[k].request !in w.net
  {
    var c, f := w.engines[a.e].inflight.value, a.chained.value;
    var k := Key(w.stored[f]);
    assert a.e == d;
    assert Holds(w, w.engines[d]);
    assert Copy(w, f, w.stored[f]) && Copy(w, OpId(c), c);
    assert f in w.stored - {OpId(c)} && w.stored[f].entity == c.entity && IsActive(w.stored[f]);
    assert w.born[f].entity == w.born[OpId(c)].entity && w.rank[f] != w.rank[OpId(c)];
    if w.minted[k].request in w.net {
      if w.rank[f] < w.rank[OpId(c)] {
        SentMeansSettled(w, w.engines[d], RequestOf(c), f);
      } else {
        SentMeansSettled(w, w.engines[d], w.minted[k].request, OpId(c));
      }
    }
  }

  lemma SettledKept(w: World, v: World, d: nat, rewritten: Option<Command>, op: Id)
    requires Kept(w, v, rewritten) && Adopted(w, v, d) && Settled(w, Drainer(w, d), op)
    ensures Settled(v, Drainer(v, d), op)
  {
    if op in v.stored {
      assert Replaces(w.stored[op], v.stored[op], rewritten);
    }
  }

  /** Nothing runnable is behind an unsettled command of its entity. */
  lemma SentIsFirst(w: World, a: Action, d: nat, op: Id)
    requires OrderStep(w, a, d) && a.Send? && Earlier(w, op, a.op)
    ensures Settled(Next(w, a), Drainer(Next(w, a), d), op)
  {
    var e := w.engines[d];
    assert Holds(w, e);
    assert Copy(w, a.op, e.seen[a.op]);
    if op in e.seen {
      assert Copy(w, op, e.seen[op]);
      assert Before(w.rank, e.seen[op], e.seen[a.op]);
    }
    if op in w.stored {
      assert op in e.seen;
      assert Follows(e.seen[op], w.stored[op]);
    }
  }

  lemma EarlierWasEarlier(w: World, a: Action, x: Id, y: Id)
    requires Books(w) && Enabled(w, a) && y in w.rank && Earlier(Next(w, a), x, y)
    ensures Earlier(w, x, y)
  {
  }

  lemma NewRequest(w: World, a: Action, d: nat, r: Request)
    requires Inv(w) && Enabled(w, a) && SoleDrainer(a, d) && r in Next(w, a).net && r !in w.net
    ensures a.Send? && r == RequestOf(w.engines[d].seen[a.op])
    ensures r.key in w.minted && w.minted[r.key].op == a.op && Next(w, a).minted == w.minted
  {
    if a.Send? {
      HeldIsIssued(w, d);
    }
  }

  lemma SettledWhileSending(w: World, a: Action, d: nat, op: Id)
    requires Enabled(w, a) && a.Send? && a.e == d && Settled(w, Drainer(w, d), op)
    requires OpId(w.engines[d].seen[a.op]) == a.op
    ensures Settled(Next(w, a), Drainer(Next(w, a), d), op)
  {
  }

  lemma SettledStays(w: World, a: Action, d: nat, op: Id)
    requires Inv(w) && Enabled(w, a) && SoleDrainer(a, d) && Settled(w, Drainer(w, d), op) && op in w.rank
    ensures Settled(Next(w, a), Drainer(Next(w, a), d), op)
  {
    if Persists(a) {
      PersistKeepsStore(w, a);
      PersistAdopts(w, a, d);
      SettledKept(w, Next(w, a), d, RewrittenBy(w, a), op);
    } else if a.Send? {
      HeldIsIssued(w, d);
      SettledWhileSending(w, a, d, op);
    } else if a.Enqueue? {
      PersistAdopts(w, a, d);
    }
  }

  lemma SentInOrderAt(w: World, a: Action, d: nat, r: Request, op: Id)
    requires OrderStep(w, a, d) && Inv(Next(w, a))
    requires var v := Next(w, a); r in v.net && r.key in v.minted && Earlier(v, op, v.minted[r.key].op)
    ensures Settled(Next(w, a), Drainer(Next(w, a), d), op)
  {
    if r in w.net {
      MintedKept(w, a, r.key);
      EarlierWasEarlier(w, a, op, w.minted[r.key].op);
      assert Settled(w, Drainer(w, d), op);
      SettledStays(w, a, d, op);
    } else {
      NewRequest(w, a, d, r);
      SentIsFirst(w, a, d, op);
    }
  }

  lemma SentInOrderKept(w: World, a: Action, d: nat)
    requires OrderStep(w, a, d) && Inv(Next(w, a))
    ensures SentInOrder(Next(w, a), Drainer(Next(w, a), d))
  {
    var v := Next(w, a);
    forall r, op | r in v.net && r.key in v.minted && Earlier(v, op, v.minted[r.key].op)
      ensures Settled(v, Drainer(v, d), op)
    {
      SentInOrderAt(w, a, d, r, op);
    }
  }

  lemma SnapshotsKept(w: World, a: Action, d: nat)
    requires Inv(w) && Enabled(w, a) && SnapshotClosed(w, Drainer(w, d))
    ensures SnapshotClosed(Next(w, a), Drainer(Next(w, a), d))
  {
    if Persists(a) {
      SnapshotsKeptByPersist(w, a, d);
    } else if a.Enqueue? {
      EnqueueKeepsSnapshots(w, a, d);
    } else {
      OthersKeepSnapshots(w, a, d);
    }
  }

  lemma OthersKeepSnapshots(w: World, a: Action, d: nat)
    requires Enabled(w, a) && SnapshotClosed(w, Drainer(w, d)) && !Persists(a) && !a.Enqueue?
    ensures SnapshotClosed(Next(w, a), Drainer(Next(w, a), d))
  {
    SameSnapshots(w, Next(w, a), d);
  }

  lemma SnapshotsKeptByPersist(w: World, a: Action, d: nat)
    requires Inv(w) && Enabled(w, a) && Persists(a) && SnapshotClosed(w, Drainer(w, d))
    ensures SnapshotClosed(Next(w, a), Drainer(Next(w, a), d))
  {
    var v := Next(w, a);
    PersistKeepsStore(w, a);
    PersistAdopts(w, a, d);
    PersistKeepsSnapshots(w, v, d, RewrittenBy(w, a));
  }

  lemma SameSnapshots(w: World, v: World, d: nat)
    requires SnapshotClosed(w, Drainer(w, d)) && Drainer(v, d).seen == Drainer(w, d).seen
    requires v.stored == w.stored && v.rank == w.rank && v.born == w.born
    ensures SnapshotClosed(v, Drainer(v, d))
  {
    assert forall x, y :: Earlier(v, x, y) == Earlier(w, x, y);
  }

  lemma PersistKeepsSnapshots(w: World, v: World, d: nat, rewritten: Option<Command>)
    requires Kept(w, v, rewritten) && Adopted(w, v, d) && SnapshotClosed(w, Drainer(w, d))
    ensures SnapshotClosed(v, Drainer(v, d))
  {
    var f := Drainer(v, d);
    forall x, y | y in f.seen && x in v.stored && Earlier(v, x, y) ensures x in f.seen {
      assert Earlier(w, x, y);
    }
  }

  lemma EnqueueKeepsSnapshots(w: World, a: Action, d: nat)
    requires Books(w) && EngineInv(w) && Enabled(w, a) && a.Enqueue?
    requires SnapshotClosed(w, Drainer(w, d))
    ensures SnapshotClosed(Next(w, a), Drainer(Next(w, a), d))
  {
    PersistAdopts(w, a, d);
    var v, f := Next(w, a), Drainer(Next(w, a), d);
    if f.seen != v.stored {
      if d in w.engines {
        HeldIsIssued(w, d);
      }
      forall x, y | y in f.seen && x in v.stored && Earlier(v, x, y) ensures x in f.seen {
        EarlierWasEarlier(w, a, x, y);
      }
    }
  }

  lemma StoredTimesKept(w: World, a: Action)
    requires Inv(w) && Enabled(w, a) && TimesInOrder(w, w.stored) && (a.Enqueue? ==> InOrder(w, a.c))
    ensures TimesInOrder(Next(w, a), Next(w, a).stored)
  {
    if Persists(a) {
      PersistKeepsStore(w, a);
      PersistKeepsTimes(w, Next(w, a), RewrittenBy(w, a));
    } else if a.Enqueue? {
      EnqueueKeepsTimes(w, a);
    } else {
      SameTimes(w, Next(w, a));
    }
  }

  lemma SameTimes(w: World, v: World)
    requires TimesInOrder(w, w.stored) && v.stored == w.stored && v.rank == w.rank && v.born == w.born
    ensures TimesInOrder(v, v.stored)
  {
    assert forall x, y :: Earlier(v, x, y) == Earlier(w, x, y);
  }

  lemma PersistKeepsTimes(w: World, v: World, rewritten: Option<Command>)
    requires Kept(w, v, rewritten) && TimesInOrder(w, w.stored)
    ensures TimesInOrder(v, v.stored)
  {
    forall x, y | x in v.stored && y in v.stored && Earlier(v, x, y)
      ensures v.stored[x].timestamp <= v.stored[y].timestamp
    {
      assert Earlier(w, x, y);
      assert Replaces(w.stored[x], v.stored[x], rewritten);
      assert Replaces(w.stored[y], v.stored[y], rewritten);
    }
  }

  lemma EnqueueKeepsTimes(w: World, a: Action)
    requires Books(w) && StoreInv(w) && Enabled(w, a) && a.Enqueue? && InOrder(w, a.c) && TimesInOrder(w, w.stored)
    ensures TimesInOrder(Next(w, a), Next(w, a).stored)
  {
    var v := Next(w, a);
    forall x, y | x in v.stored && y in v.stored && Earlier(v, x, y)
      ensures v.stored[x].timestamp <= v.stored[y].timestamp
    {
      if y == OpId(a.c) {
        assert x in w.stored && Copy(w, x, w.stored[x]);
      } else {
        EarlierWasEarlier(w, a, x, y);
      }
    }
  }

  lemma SeenTimesKept(w: World, a: Action, d: nat)
    requires Inv(w) && Enabled(w, a) && TimesInOrder(w, Drainer(w, d).seen)
    requires TimesInOrder(Next(w, a), Next(w, a).stored)
    ensures TimesInOrder(Next(w, a), Drainer(Next(w, a), d).seen)
  {
    SeenOldOrNew(w, a, d);
    if Drainer(Next(w, a), d).seen != Next(w, a).stored {
      OldTimesKept(w, a, d);
    }
  }

  lemma SeenOldOrNew(w: World, a: Action, d: nat)
    requires Enabled(w, a)
    ensures Drainer(Next(w, a), d).seen in {Next(w, a).stored, Drainer(w, d).seen}
  {
  }

  lemma OldTimesKept(w: World, a: Action, d: nat)
    requires Books(w) && EngineInv(w) && Enabled(w, a) && TimesInOrder(w, Drainer(w, d).seen)
    ensures TimesInOrder(Next(w, a), Drainer(w, d).seen)
  {
    var e := Drainer(w, d);
    if d in w.engines {
      HeldIsIssued(w, d);
    }
    forall x, y | x in e.seen && y in e.seen && Earlier(Next(w, a), x, y)
      ensures e.seen[x].timestamp <= e.seen[y].timestamp
    {
      EarlierWasEarlier(w, a, x, y);
    }
  }

  lemma StepKeepsOrder(w: World, a: Action, d: nat)
    requires OrderStep(w, a, d)
    ensures Inv(Next(w, a)) && OrderInv(Next(w, a), d) && Disciplined(w, a, d)
  {
    StepKeepsInv(w, a);
    OnlyDrainerKept(w, a, d);
    SentInOrderKept(w, a, d);
    SnapshotsKept(w, a, d);
    StoredTimesKept(w, a);
    SeenTimesKept(w, a, d);
    if ReKeys(w, a) {
      ChainedWasNeverSent(w, a, d);
    }
  }

  lemma {:induction false} OrderlyKeepsOrder(w: World, actions: seq<Action>, d: nat)
    requires Inv(w) && OrderInv(w, d) && Runs(w, actions) && OrderlyRun(w, actions, d)
    ensures Inv(After(w, actions)) && OrderInv(After(w, actions), d) && DisciplinedRun(w, actions, d)
    decreases |actions|
  {
    if actions != [] {
      StepKeepsOrder(w, actions[0], d);
      OrderlyKeepsOrder(Next(w, actions[0]), actions[1..], d);
    }
  }

  // ---------------------------------------------------------------------------
  // Main results
  // ---------------------------------------------------------------------------

  /** One drainer, enqueued in time order: every ordinary command takes effect at most once. */
  lemma OrderlyAtMostOnce(w: World, actions: seq<Action>, d: nat, op: Id, k1: Id, k2: Id)
    requires Initial(w) && Runs(w, actions) && OrderlyRun(w, actions, d)
    requires TookEffect(After(w, actions), k1, op) && TookEffect(After(w, actions), k2, op)
    ensures k1 == k2
  {
    InitialInv(w);
    OrderlyKeepsOrder(w, actions, d);
    AtMostOnce(w, actions, d, op, k1, k2);
  }

  /** The acknowledgements of one entity come in the order its commands were enqueued. */
  lemma AcknowledgedInEnqueueOrder(w: World, actions: seq<Action>, d: nat, a: Action, op: Id)
    requires Initial(w) && Runs(w, actions) && OrderlyRun(w, actions, d)
    requires var v := After(w, actions);
             && Enabled(v, a) && a.Ack? && op in v.acked && op in v.born
             && v.born[op].entity == v.engines[a.e].inflight.value.entity
    ensures var v := After(w, actions);
            var acked := OpId(v.engines[a.e].inflight.value);
            op in v.rank && acked in v.rank && v.rank[op] <= v.rank[acked]
  {
    InitialInv(w);
    OrderlyKeepsOrder(w, actions, d);
    RunKeepsAcked(w, actions);
    AckInOrderHere(After(w, actions), d, a, op);
  }

  lemma AckInOrderHere(v: World, d: nat, a: Action, op: Id)
    requires Inv(v) && OnlyDrainer(v, d) && SentInOrder(v, Drainer(v, d)) && AckedTookEffect(v)
    requires Enabled(v, a) && a.Ack? && op in v.acked && op in v.born
    requires v.born[op].entity == v.engines[a.e].inflight.value.entity
    ensures var acked := OpId(v.engines[a.e].inflight.value);
            op in v.rank && acked in v.rank && v.rank[op] <= v.rank[acked]
  {
    assert Holds(v, v.engines[d]);
    var c := v.engines[d].inflight.value;
    var k :| TookEffect(v, k, op);
    if v.rank[OpId(c)] < v.rank[op] {
      SentMeansSettled(v, v.engines[d], v.server.memory[k].request, OpId(c));
    }
  }

  // ---------------------------------------------------------------------------
  // Any number of drainers
  // ---------------------------------------------------------------------------

  ghost predicate TimelyRun(w: World, actions: seq<Action>)
    requires Runs(w, actions)
    decreases |actions|
  {
    actions != [] ==>
      (actions[0].Enqueue? ==> InOrder(w, actions[0].c)) && TimelyRun(Next(w, actions[0]), actions[1..])
  }

  /** Only these engines drain. */
  predicate DrainedBy(actions: seq<Action>, drainers: set<nat>) {
    forall a | a in actions :: a.Send? || a.Misfire? ==> a.e in drainers
  }

  /** The command being acknowledged was enqueued before op, which is of the same entity and acknowledged already. */
  ghost predicate AcknowledgesOutOfOrder(v: World, a: Action, op: Id) {
    && a.Ack? && Enabled(v, a) && op in v.acked && op in v.born && op in v.rank
    && var c := v.engines[a.e].inflight.value;
       OpId(c) in v.rank && v.born[op].entity == c.entity && v.rank[OpId(c)] < v.rank[op]
  }

  /** Once a command was sent by anyone, every earlier command of its entity in the store is inactive. */
  ghost predicate SentAhead(w: World) {
    forall r, op | r in w.net && r.key in w.minted && Earlier(w, op, w.minted[r.key].op) && op in w.stored ::
      !IsActive(w.stored[op])
  }

  ghost predicate SnapshotsInOrder(w: World) {
    forall d: nat :: SnapshotClosed(w, Drainer(w, d)) && TimesInOrder(w, Drainer(w, d).seen)
  }

  ghost predicate TimelyInv(w: World) {
    SentAhead(w) && TimesInOrder(w, w.stored) && SnapshotsInOrder(w)
  }

  lemma SnapshotsInOrderKept(w: World, a: Action)
    requires Inv(w) && SnapshotsInOrder(w) && Enabled(w, a) && TimesInOrder(Next(w, a), Next(w, a).stored)
    ensures SnapshotsInOrder(Next(w, a))
  {
    hide Next, Enabled, TimesInOrder, SnapshotClosed, Drainer;
    forall d: nat
      ensures SnapshotClosed(Next(w, a), Drainer(Next(w, a), d))
      ensures TimesInOrder(Next(w, a), Drainer(Next(w, a), d).seen)
    {
      SnapshotsKept(w, a, d);
      SeenTimesKept(w, a, d);
    }
  }

  /** Whoever sends a command has seen every earlier one that is stored, and seen it inactive. */
  lemma SenderPassedEarlier(w: World, a: Action, op: Id)
    requires EngineInv(w) && SnapshotsInOrder(w) && Enabled(w, a) && a.Send?
    requires Earlier(w, op, a.op) && op in w.stored
    ensures !IsActive(w.stored[op])
  {
    var e := w.engines[a.e];
    assert e == Drainer(w, a.e);
    assert SnapshotClosed(w, e) && TimesInOrder(w, e.seen);
    assert Holds(w, e);
    assert Copy(w, a.op, e.seen[a.op]) && Copy(w, op, e.seen[op]);
    assert Before(w.rank, e.seen[op], e.seen[a.op]);
    assert Follows(e.seen[op], w.stored[op]);
  }

  lemma InactiveKept(w: World, a: Action, op: Id)
    requires Inv(w) && Enabled(w, a) && op in Next(w, a).stored && op in w.rank
    requires op in w.stored ==> !IsActive(w.stored[op])
    ensures !IsActive(Next(w, a).stored[op])
  {
    StoredWasStored(w, a, op);
    hide Next, Enabled, Inv;
    StepFollows(w, a, op);
  }

  lemma StoredWasStored(w: World, a: Action, op: Id)
    requires Inv(w) && Enabled(w, a) && op in w.rank && op in Next(w, a).stored
    ensures op in w.stored
  {
    StepKeepsInv(w, a);
    hide StoredBy, RewrittenBy;
    assert op !in Next(w, a).gone;
  }

  lemma SentAheadKept(w: World, a: Action)
    requires Inv(w) && TimelyInv(w) && Enabled(w, a) && Inv(Next(w, a))
    ensures SentAhead(Next(w, a))
  {
    var v := Next(w, a);
    forall r, op | r in v.net && r.key in v.minted && Earlier(v, op, v.minted[r.key].op) && op in v.stored
      ensures !IsActive(v.stored[op])
    {
      SentAheadAt(w, a, r, op);
    }
  }

  lemma SentAheadAt(w: World, a: Action, r: Request, op: Id)
    requires Inv(w) && TimelyInv(w) && Enabled(w, a)
    requires var v := Next(w, a);
             r in v.net && r.key in v.minted && Earlier(v, op, v.minted[r.key].op) && op in v.stored
    ensures !IsActive(Next(w, a).stored[op])
  {
    if r in w.net {
      OldRequest(w, a, r, op);
    } else {
      SentByItsSender(w, a, r);
    }
    EarlierIsIssued(w, a, r, op);
    hide Next, Enabled, SnapshotsInOrder, TimesInOrder;
    StoredWasStored(w, a, op);
    if r !in w.net {
      SenderPassedEarlier(w, a, op);
    }
    InactiveKept(w, a, op);
  }

  lemma OldRequest(w: World, a: Action, r: Request, op: Id)
    requires Inv(w) && Enabled(w, a) && r in w.net && r.key in Next(w, a).minted
    ensures r.key in w.minted && Next(w, a).minted[r.key] == w.minted[r.key]
  {
    MintedKept(w, a, r.key);
  }

  lemma SentByItsSender(w: World, a: Action, r: Request)
    requires Inv(w) && Enabled(w, a) && r in Next(w, a).net && r !in w.net
    ensures a.Send? && r.key in w.minted && w.minted[r.key].op == a.op && Next(w, a).minted == w.minted
  {
    if a.Send? {
      HeldIsIssued(w, a.e);
    }
  }

  lemma EarlierIsIssued(w: World, a: Action, r: Request, op: Id)
    requires Inv(w) && Enabled(w, a) && r.key in w.minted && r.key in Next(w, a).minted
    requires Next(w, a).minted[r.key] == w.minted[r.key] && Earlier(Next(w, a), op, w.minted[r.key].op)
    ensures Earlier(w, op, w.minted[r.key].op) && op in w.rank
  {
    EarlierWasEarlier(w, a, op, w.minted[r.key].op);
  }

  lemma StepKeepsTimely(w: World, a: Action)
    requires Inv(w) && TimelyInv(w) && Enabled(w, a) && (a.Enqueue? ==> InOrder(w, a.c))
    ensures Inv(Next(w, a)) && TimelyInv(Next(w, a))
  {
    StepKeepsInv(w, a);
    StoredTimesKept(w, a);
    SnapshotsInOrderKept(w, a);
    SentAheadKept(w, a);
  }

  lemma {:induction false} TimelyKeepsInv(w: World, actions: seq<Action>)
    requires Inv(w) && TimelyInv(w) && Runs(w, actions) && TimelyRun(w, actions)
    ensures Inv(After(w, actions)) && TimelyInv(After(w, actions))
    decreases |actions|
  {
    if actions != [] {
      StepKeepsTimely(w, actions[0]);
      TimelyKeepsInv(Next(w, actions[0]), actions[1..]);
    }
  }

  /**
   * However many engines drain: when a command that is still active in the store is acknowledged, no later
   * command of its entity has been acknowledged yet.
   */
  lemma ActiveAcknowledgedInOrder(w: World, actions: seq<Action>, a: Action, op: Id)
    requires Initial(w) && Runs(w, actions) && TimelyRun(w, actions)
    requires var v := After(w, actions);
             && Enabled(v, a) && a.Ack? && op in v.acked && op in v.born
             && v.born[op].entity == v.engines[a.e].inflight.value.entity
    requires var v, c := After(w, actions), After(w, actions).engines[a.e].inflight.value;
             OpId(c) in v.stored && IsActive(v.stored[OpId(c)])
    ensures var v := After(w, actions);
            var acked := OpId(v.engines[a.e].inflight.value);
            op in v.rank && acked in v.rank && v.rank[op] <= v.rank[acked]
  {
    InitialInv(w);
    TimelyKeepsInv(w, actions);
    RunKeepsAcked(w, actions);
    ActiveAckInOrderHere(After(w, actions), a, op);
  }

  lemma SentMeansInactive(v: World, r: Request, op: Id)
    requires SentAhead(v) && r in v.net && r.key in v.minted && Earlier(v, op, v.minted[r.key].op) && op in v.stored
    ensures !IsActive(v.stored[op])
  {
  }

  lemma ActiveAckInOrderHere(v: World, a: Action, op: Id)
    requires Inv(v) && SentAhead(v) && AckedTookEffect(v)
    requires Enabled(v, a) && a.Ack? && op in v.acked && op in v.born
    requires v.born[op].entity == v.engines[a.e].inflight.value.entity
    requires var c := v.engines[a.e].inflight.value; OpId(c) in v.stored && IsActive(v.stored[OpId(c)])
    ensures var acked := OpId(v.engines[a.e].inflight.value);
            op in v.rank && acked in v.rank && v.rank[op] <= v.rank[acked]
  {
    assert Holds(v, v.engines[a.e]);
    var c := v.engines[a.e].inflight.value;
    var k :| TookEffect(v, k, op);
    var r := v.server.memory[k].request;
    if v.rank[OpId(c)] < v.rank[op] {
      SentMeansInactive(v, r, OpId(c));
    }
  }
}
