/**
 * One engine drains, any engine may edit the queue. A command takes effect at most once as
 * long as no acknowledgement puts a key aside that can still take effect, and only then.
 */
module ExactlyOnce {
  import opened Options
  import opened Commands
  import opened Protocol
  import opened ProtocolSafety
  import opened Delivery

  ghost function Drainer(w: World, d: nat): Engine {
    if d in w.engines then w.engines[d] else Engine(map[], None)
  }

  /** A key that can no longer take effect: never sent, refused, or sent with a precondition nobody accepts. */
  ghost predicate Dead(w: World, k: Id) {
    && k in w.minted
    && (|| w.minted[k].request !in w.net || Hopeless(w.minted[k].request)
        || (k in w.server.memory && !w.server.memory[k].outcome.Applied?))
  }

  ghost predicate OnlyDrainer(w: World, d: nat) {
    forall e | e in w.engines && e != d :: w.engines[e].inflight.None?
  }

  /** The drainer's copies carry the last durable key of their operation. */
  ghost predicate KeysCurrent(w: World, e: Engine) {
    && (forall id | id in e.seen :: id in w.current && Key(e.seen[id]) == w.current[id])
    && (e.inflight.Some? ==>
          OpId(e.inflight.value) in w.current && Key(e.inflight.value) == w.current[OpId(e.inflight.value)])
  }

  /** Every superseded key is dead. */
  ghost predicate SupersededDead(w: World) {
    forall k | k in w.minted :: w.minted[k].op in w.current && (k != w.current[w.minted[k].op] ==> Dead(w, k))
  }

  ghost predicate NoCrossAccountSent(w: World) {
    forall r | r in w.net :: r.kind != CrossAccountMove
  }

  /** Only engine d talks to the server. */
  predicate SoleDrainer(a: Action, d: nat) {
    a.Send? || a.Misfire? ==> a.e == d
  }

  /** An acknowledgement that puts the next command under a new key. */
  ghost predicate ReKeys(w: World, a: Action) {
    && a.Ack? && Enabled(w, a) && a.chained.Some? && a.chained.value in w.stored
    && Key(ChainedCopy(w, a)) != Key(w.stored[a.chained.value])
  }

  /** The key put aside was never sent, or was refused. */
  ghost predicate ChainsSafely(w: World, a: Action) {
    ReKeys(w, a) ==> Dead(w, Key(w.stored[a.chained.value]))
  }

  ghost predicate Disciplined(w: World, a: Action, d: nat) {
    SoleDrainer(a, d) && ChainsSafely(w, a)
  }

  ghost predicate DisciplinedRun(w: World, actions: seq<Action>, d: nat)
    requires Runs(w, actions)
    decreases |actions|
  {
    actions != [] ==>
      Disciplined(w, actions[0], d) && DisciplinedRun(Next(w, actions[0]), actions[1..], d)
  }

  ghost predicate KeyBooks(w: World, d: nat) {
    OnlyDrainer(w, d) && KeysCurrent(w, Drainer(w, d)) && SupersededDead(w) && NoCrossAccountSent(w)
  }

  /** With superseded keys dead, an operation takes effect under one key only. */
  lemma AtMostOnceHere(w: World, d: nat, op: Id, k1: Id, k2: Id)
    requires Inv(w) && KeyBooks(w, d) && TookEffect(w, k1, op) && TookEffect(w, k2, op)
    ensures k1 == k2
  {
    assert k1 == w.current[op] || Dead(w, k1);
    assert k2 == w.current[op] || Dead(w, k2);
  }

  // ---------------------------------------------------------------------------
  // Preservation, conjunct by conjunct
  // ---------------------------------------------------------------------------

  ghost predicate KeyStep(w: World, a: Action, d: nat) {
    Inv(w) && KeyBooks(w, d) && Enabled(w, a) && Disciplined(w, a, d)
  }

  /** What a persist pass does to the store, without how. */
  ghost predicate Kept(w: World, v: World, rewritten: Option<Command>) {
    && v.stored.Keys <= w.stored.Keys
    && (forall id | id in v.stored :: Replaces(w.stored[id], v.stored[id], rewritten))
    && v.rank == w.rank && v.born == w.born && v.net == w.net && v.server == w.server
  }

  /** The drainer either adopts the new store or is not involved. */
  ghost predicate Adopted(w: World, v: World, d: nat) {
    var e, f := Drainer(w, d), Drainer(v, d);
    && (f.seen == v.stored || f.seen == e.seen)
    && (f.inflight == None || f.inflight == e.inflight)
  }

  lemma PersistKeepsStore(w: World, a: Action)
    requires Inv(w) && Enabled(w, a) && Persists(a)
    ensures Kept(w, Next(w, a), RewrittenBy(w, a))
  {
    PersistCanCommit(w, a);
  }

  lemma PersistAdopts(w: World, a: Action, d: nat)
    requires Enabled(w, a) && (Persists(a) || a.Enqueue?)
    ensures Adopted(w, Next(w, a), d)
  {
  }

  lemma RewritesComeFromDrainer(w: World, a: Action, d: nat)
    requires OnlyDrainer(w, d) && Enabled(w, a) && Persists(a) && SoleDrainer(a, d)
    ensures RewrittenBy(w, a).Some? || a.Ack? || a.Fail? ==> a.e == d
  {
  }

  lemma OnlyDrainerKept(w: World, a: Action, d: nat)
    requires OnlyDrainer(w, d) && Enabled(w, a) && SoleDrainer(a, d)
    ensures OnlyDrainer(Next(w, a), d)
  {
  }

  /** The last durable key of an operation changes only when its copy is rewritten. */
  lemma CurrentKept(w: World, a: Action, op: Id)
    requires Inv(w) && Enabled(w, a) && op in w.current
    requires Persists(a) ==> RewrittenBy(w, a).None? || OpId(RewrittenBy(w, a).value) != op
    ensures op in Next(w, a).current && Next(w, a).current[op] == w.current[op]
  {
    if Persists(a) {
      PersistKeepsStore(w, a);
      if op in StoredBy(w, a) {
        assert Copy(w, op, w.stored[op]);
        assert Replaces(w.stored[op], StoredBy(w, a)[op], RewrittenBy(w, a));
      }
    }
  }

  lemma KeysCurrentKept(w: World, a: Action, d: nat)
    requires KeyStep(w, a, d) && Inv(Next(w, a))
    ensures KeysCurrent(Next(w, a), Drainer(Next(w, a), d))
  {
    if Persists(a) || a.Enqueue? {
      hide Enabled, Next, Adopted, Books, StoreInv, EngineInv, KeyInv, SupersededDead;
      PersistAdopts(w, a, d);
      SeenKeysCurrent(w, a, d);
      InflightKeyCurrent(w, a, d);
    } else {
      OthersKeepKeysCurrent(w, a, d);
    }
  }

  lemma OthersKeepKeysCurrent(w: World, a: Action, d: nat)
    requires EngineInv(w) && KeysCurrent(w, Drainer(w, d)) && Enabled(w, a) && SoleDrainer(a, d)
    requires !Persists(a) && !a.Enqueue?
    ensures KeysCurrent(Next(w, a), Drainer(Next(w, a), d))
  {
    if a.Send? {
      HeldIsIssued(w, d);
    }
  }

  lemma SeenKeysCurrent(w: World, a: Action, d: nat)
    requires Inv(w) && KeysCurrent(w, Drainer(w, d)) && OnlyDrainer(w, d) && Enabled(w, a) && SoleDrainer(a, d)
    requires Persists(a) || a.Enqueue?
    requires StoreInv(Next(w, a)) && Adopted(w, Next(w, a), d)
    ensures var v, f := Next(w, a), Drainer(Next(w, a), d);
            forall id | id in f.seen :: id in v.current && Key(f.seen[id]) == v.current[id]
  {
    var v, f := Next(w, a), Drainer(Next(w, a), d);
    if f.seen != v.stored {
      BystanderRewritesNothing(w, a, d);
      forall id | id in f.seen ensures id in v.current && Key(f.seen[id]) == v.current[id] {
        CurrentKept(w, a, id);
      }
    }
  }

  lemma BystanderRewritesNothing(w: World, a: Action, d: nat)
    requires OnlyDrainer(w, d) && Enabled(w, a) && SoleDrainer(a, d) && (Persists(a) || a.Enqueue?)
    requires Drainer(Next(w, a), d).seen != Next(w, a).stored
    ensures Persists(a) ==> RewrittenBy(w, a).None?
  {
  }

  lemma InflightKeyCurrent(w: World, a: Action, d: nat)
    requires Inv(w) && KeysCurrent(w, Drainer(w, d)) && OnlyDrainer(w, d) && Enabled(w, a) && SoleDrainer(a, d)
    requires Persists(a) || a.Enqueue?
    requires Adopted(w, Next(w, a), d)
    ensures var v, f := Next(w, a), Drainer(Next(w, a), d);
            f.inflight.Some? ==> OpId(f.inflight.value) in v.current
                                 && Key(f.inflight.value) == v.current[OpId(f.inflight.value)]
  {
    var f := Drainer(Next(w, a), d);
    if f.inflight.Some? {
      var op := OpId(f.inflight.value);
      RewritesNotInflight(w, a, d, op);
      hide Enabled, Next, RewrittenBy, Books, StoreInv, EngineInv, KeyInv;
      CurrentKept(w, a, op);
    }
  }

  /** While a dispatch is open its command is not rewritten. */
  lemma RewritesNotInflight(w: World, a: Action, d: nat, op: Id)
    requires OnlyDrainer(w, d) && Enabled(w, a) && SoleDrainer(a, d) && (Persists(a) || a.Enqueue?)
    requires var f := Drainer(Next(w, a), d); f.inflight.Some? && OpId(f.inflight.value) == op
    ensures Persists(a) ==> RewrittenBy(w, a).None? || OpId(RewrittenBy(w, a).value) != op
  {
  }

  /** A key is superseded only when it is dead: refused for good, or never sent. */
  lemma SupersededKeyIsDead(w: World, a: Action, d: nat)
    requires KeyStep(w, a, d) && Persists(a) && RewrittenBy(w, a).Some?
    requires var r := RewrittenBy(w, a).value; OpId(r) in w.current && Key(r) != w.current[OpId(r)]
    ensures Dead(w, w.current[OpId(RewrittenBy(w, a).value)])
  {
    RewritesComeFromDrainer(w, a, d);
    if a.Ack? {
      ChainedKeyIsDead(w, a);
    } else if a.Fail? {
      RefusedKeyIsDead(w, a, d);
    } else {
      assert a.Misfire?;
      MisfiredKeyIsDead(w, a, d);
    }
  }

  lemma ChainedKeyIsDead(w: World, a: Action)
    requires StoreInv(w) && Enabled(w, a) && ChainsSafely(w, a) && a.Ack? && a.chained.Some?
    requires var r := ChainedCopy(w, a); OpId(r) in w.current && Key(r) != w.current[OpId(r)]
    ensures Dead(w, w.current[OpId(ChainedCopy(w, a))])
  {
    assert Copy(w, a.chained.value, w.stored[a.chained.value]);
  }

  lemma RefusedKeyIsDead(w: World, a: Action, d: nat)
    requires EngineInv(w) && KeysCurrent(w, Drainer(w, d)) && OnlyDrainer(w, d) && NoCrossAccountSent(w)
    requires Enabled(w, a) && a.Fail? && a.e == d && a.attached
    requires OpId(FailedCopy(w, a)) in w.current && Key(FailedCopy(w, a)) != w.current[OpId(FailedCopy(w, a))]
    ensures Dead(w, w.current[OpId(FailedCopy(w, a))])
  {
    assert Holds(w, w.engines[d]);
    var c := w.engines[d].inflight.value;
    FailureUsesEffort(c, a.reply, a.current, a.now, a.freshKey, a.freshCopy);
  }

  lemma MisfiredKeyIsDead(w: World, a: Action, d: nat)
    requires EngineInv(w) && KeysCurrent(w, Drainer(w, d)) && NoCrossAccountSent(w)
    requires Enabled(w, a) && a.Misfire? && a.e == d
    requires a.op in w.current && Key(RewrittenBy(w, a).value) != w.current[a.op]
    ensures OpId(RewrittenBy(w, a).value) == a.op && Dead(w, w.current[a.op])
  {
    HeldIsIssued(w, d);
  }

  /** The key of a rewritten copy that keeps its key stays the current one. */
  lemma RewrittenKeyIsCurrent(w: World, a: Action)
    requires Inv(w) && Enabled(w, a) && Persists(a) && RewrittenBy(w, a).Some?
    requires var r := RewrittenBy(w, a).value; OpId(r) in w.current && w.current[OpId(r)] == Key(r)
    ensures var op := OpId(RewrittenBy(w, a).value);
            op in Next(w, a).current && Next(w, a).current[op] == w.current[op]
  {
    PersistKeepsStore(w, a);
    var op := OpId(RewrittenBy(w, a).value);
    if op in StoredBy(w, a) {
      assert Replaces(w.stored[op], StoredBy(w, a)[op], RewrittenBy(w, a));
      assert Copy(w, op, w.stored[op]);
    }
  }

  /** Only a send puts a request on the network, and it is the current one of its operation. */
  lemma UnsentKept(w: World, a: Action, d: nat, k: Id)
    requires EngineInv(w) && KeysCurrent(w, Drainer(w, d)) && Enabled(w, a) && SoleDrainer(a, d)
    requires k in w.minted && w.minted[k].request !in w.net && w.minted[k].request.key == k
    requires !a.Send? || w.minted[k].op !in w.current || k != w.current[w.minted[k].op]
    ensures w.minted[k].request !in Next(w, a).net
  {
    if a.Send? {
      HeldIsIssued(w, d);
    }
  }

  lemma DeadKept(w: World, a: Action, d: nat, k: Id)
    requires Inv(w) && KeysCurrent(w, Drainer(w, d)) && Enabled(w, a) && SoleDrainer(a, d) && Dead(w, k)
    requires w.minted[k].op in w.current
    requires k != w.current[w.minted[k].op] || !a.Send?
    ensures Dead(Next(w, a), k)
  {
    MintedKept(w, a, k);
    if w.minted[k].request !in w.net {
      UnsentKept(w, a, d, k);
    } else if !Hopeless(w.minted[k].request) {
      AnswerKept(w, a, k);
    }
  }

  lemma NewKeyIsUnsent(w: World, a: Action, k: Id)
    requires Inv(w) && Enabled(w, a) && k !in w.minted && k in Next(w, a).minted && Inv(Next(w, a))
    ensures Dead(Next(w, a), k)
  {
    var v := Next(w, a);
    assert v.net == w.net;
  }

  lemma OldKeyAt(w: World, a: Action, d: nat, k: Id)
    requires KeyStep(w, a, d) && k in w.minted && w.minted[k].op in w.current
    ensures var op := w.minted[k].op;
            Dead(Next(w, a), k) || (op in Next(w, a).current && Next(w, a).current[op] == k)
  {
    var op := w.minted[k].op;
    if k != w.current[op] {
      DeadKept(w, a, d, k);
    } else if Persists(a) && RewrittenBy(w, a).Some? && OpId(RewrittenBy(w, a).value) == op {
      if Key(RewrittenBy(w, a).value) != k {
        SupersededKeyIsDead(w, a, d);
        DeadKept(w, a, d, k);
      } else {
        RewrittenKeyIsCurrent(w, a);
      }
    } else {
      CurrentKept(w, a, op);
    }
  }

  lemma SupersededDeadAt(w: World, a: Action, d: nat, k: Id)
    requires KeyStep(w, a, d) && Inv(Next(w, a)) && k in Next(w, a).minted
    ensures var v := Next(w, a);
            v.minted[k].op in v.current && (k != v.current[v.minted[k].op] ==> Dead(v, k))
  {
    if k in w.minted {
      MintedKept(w, a, k);
      OldKeyAt(w, a, d, k);
    } else {
      NewKeyIsUnsent(w, a, k);
    }
  }

  lemma SupersededDeadKept(w: World, a: Action, d: nat)
    requires KeyStep(w, a, d) && Inv(Next(w, a))
    ensures SupersededDead(Next(w, a))
  {
    var v := Next(w, a);
    forall k | k in v.minted
      ensures v.minted[k].op in v.current && (k != v.current[v.minted[k].op] ==> Dead(v, k))
    {
      SupersededDeadAt(w, a, d, k);
    }
  }

  lemma NoCrossAccountKept(w: World, a: Action)
    requires NoCrossAccountSent(w) && Enabled(w, a)
    ensures NoCrossAccountSent(Next(w, a))
  {
  }

  lemma StepKeepsKeyBooks(w: World, a: Action, d: nat)
    requires KeyStep(w, a, d)
    ensures Inv(Next(w, a)) && KeyBooks(Next(w, a), d)
  {
    StepKeepsInv(w, a);
    OnlyDrainerKept(w, a, d);
    KeysCurrentKept(w, a, d);
    SupersededDeadKept(w, a, d);
    NoCrossAccountKept(w, a);
  }

  lemma {:induction false} DisciplinedKeepsKeyBooks(w: World, actions: seq<Action>, d: nat)
    requires Inv(w) && KeyBooks(w, d) && Runs(w, actions) && DisciplinedRun(w, actions, d)
    ensures Inv(After(w, actions)) && KeyBooks(After(w, actions), d)
    decreases |actions|
  {
    if actions != [] {
      StepKeepsKeyBooks(w, actions[0], d);
      DisciplinedKeepsKeyBooks(Next(w, actions[0]), actions[1..], d);
    }
  }

  // ---------------------------------------------------------------------------
  // Main results
  // ---------------------------------------------------------------------------

  /** If no acknowledgement puts a live key aside, every ordinary command takes effect at most once. */
  lemma AtMostOnce(w: World, actions: seq<Action>, d: nat, op: Id, k1: Id, k2: Id)
    requires Initial(w) && Runs(w, actions) && DisciplinedRun(w, actions, d)
    requires TookEffect(After(w, actions), k1, op) && TookEffect(After(w, actions), k2, op)
    ensures k1 == k2
  {
    InitialInv(w);
    DisciplinedKeepsKeyBooks(w, actions, d);
    AtMostOnceHere(After(w, actions), d, op, k1, k2);
  }

  /** And every acknowledged command took effect, hence exactly once. */
  lemma AcknowledgedExactlyOnce(w: World, actions: seq<Action>, d: nat, op: Id)
    requires Initial(w) && Runs(w, actions) && DisciplinedRun(w, actions, d)
    requires op in After(w, actions).acked
    ensures exists k :: TookEffect(After(w, actions), k, op)
                        && forall k' | TookEffect(After(w, actions), k', op) :: k' == k
  {
    InitialInv(w);
    DisciplinedKeepsKeyBooks(w, actions, d);
    AcknowledgedTookEffect(w, actions, op);
    var v := After(w, actions);
    var k :| TookEffect(v, k, op);
    forall k' | TookEffect(v, k', op) ensures k' == k {
      AtMostOnceHere(v, d, op, k, k');
    }
  }
}
