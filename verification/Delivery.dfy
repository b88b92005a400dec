/**
 * Delivery guarantees over whole runs, with any number of draining engines: no command is
 * lost or brought back, a sealed command takes effect at most once, and an acknowledged
 * command took effect.
 */
module Delivery {
  import opened Options
  import opened Commands
  import opened Protocol
  import opened ProtocolSafety

  lemma InitialInv(w: World)
    requires Initial(w)
    ensures Inv(w)
  {
  }

  /** In every reachable state the stored operations are the issued ones minus the removed ones. */
  lemma StoredIsIssuedMinusRemoved(w: World, actions: seq<Action>)
    requires Initial(w) && Runs(w, actions)
    ensures var v := After(w, actions);
            v.stored.Keys == v.rank.Keys - v.gone && v.gone <= v.rank.Keys
  {
    InitialInv(w);
    RunKeepsInv(w, actions);
  }

  /** Only an acknowledgement, a cancellation or a clear takes an operation out of the store. */
  lemma OnlyRemovalsLose(w: World, a: Action, id: Id)
    requires Inv(w) && Enabled(w, a) && id in w.stored && id !in Next(w, a).stored
    ensures || (a.Ack? && id == OpId(w.engines[a.e].inflight.value))
            || (a.Cancel? && id == a.op)
            || (a.Clear? && id in w.engines[a.e].seen)
            || a.ClearEverything?
  {
    if Persists(a) {
      hide StoredBy, Next, Enabled, Books, StoreInv, EngineInv, KeyInv, MayMint;
      PersistStores(w, a);
      PersistCanCommit(w, a);
      RemovedIs(w, a, id);
    } else {
      OthersKeepStored(w, a, id);
    }
  }

  lemma RemovedIs(w: World, a: Action, id: Id)
    requires Enabled(w, a) && Persists(a) && id in RemovedBy(w, a)
    ensures || (a.Ack? && id == OpId(w.engines[a.e].inflight.value))
            || (a.Cancel? && id == a.op)
            || (a.Clear? && id in w.engines[a.e].seen)
            || a.ClearEverything?
  {
  }

  /** Whoever removed an operation, no engine that still holds it ever stores it again. */
  lemma {:induction false} RemovedStaysRemoved(w: World, actions: seq<Action>)
    requires Inv(w) && Runs(w, actions)
    ensures w.gone <= After(w, actions).gone && w.gone !! After(w, actions).stored.Keys
    decreases |actions|
  {
    if actions != [] {
      StepKeepsInv(w, actions[0]);
      RemovedStaysRemoved(Next(w, actions[0]), actions[1..]);
    }
  }

  lemma StepFollows(w: World, a: Action, id: Id)
    requires Inv(w) && Enabled(w, a) && id in w.stored && id in Next(w, a).stored
    ensures Follows(w.stored[id], Next(w, a).stored[id])
  {
    if Persists(a) {
      hide Enabled, Next, StoredBy, RewrittenBy, RemovedBy, Books, StoreInv, EngineInv, KeyInv, MayMint;
      PersistStores(w, a);
      PersistCanCommit(w, a);
    } else {
      hide Follows;
      OthersKeepStored(w, a, id);
      FollowsSelf(w.stored[id]);
    }
  }

  lemma PersistStores(w: World, a: Action)
    requires Enabled(w, a) && Persists(a)
    ensures Next(w, a).stored == StoredBy(w, a)
  {
  }

  lemma OthersKeepStored(w: World, a: Action, id: Id)
    requires Books(w) && Enabled(w, a) && !Persists(a) && id in w.stored
    ensures id in Next(w, a).stored && Next(w, a).stored[id] == w.stored[id]
  {
  }

  /** A failed or conflicted command never becomes active again, and no copy changes what it asks for. */
  lemma {:induction false} TerminalStaysTerminal(w: World, actions: seq<Action>, id: Id)
    requires Inv(w) && Runs(w, actions) && id in w.stored && id in After(w, actions).stored
    ensures var c, d := w.stored[id], After(w, actions).stored[id];
            && SameIdentity(c, d) && (!IsActive(c) ==> !IsActive(d))
            && (CarriesSealedCiphertext(c) ==> d.baseVersion == c.baseVersion)
            && (Pinned(c) ==> Key(d) == Key(c))
    decreases |actions|
  {
    if actions != [] {
      var v := Next(w, actions[0]);
      StepKeepsInv(w, actions[0]);
      if id !in v.stored {
        assert id in v.gone;
        RemovedStaysRemoved(v, actions[1..]);
        assert false;
      } else {
        StepFollows(w, actions[0], id);
        TerminalStaysTerminal(v, actions[1..], id);
      }
    }
  }

  /** Every copy of a sealed command, stored or held, is bound to the revision it was enqueued with. */
  lemma SealedNeverRebased(w: World, actions: seq<Action>, id: Id)
    requires Initial(w) && Runs(w, actions)
    ensures var v := After(w, actions);
            && (id in v.stored && id in v.born && CarriesSealedCiphertext(v.born[id]) ==>
                  v.stored[id].baseVersion == v.born[id].baseVersion && v.stored[id].details == v.born[id].details)
            && (forall e | e in v.engines && id in v.engines[e].seen && id in v.born
                           && CarriesSealedCiphertext(v.born[id]) ::
                  && v.engines[e].seen[id].baseVersion == v.born[id].baseVersion
                  && v.engines[e].seen[id].details == v.born[id].details)
  {
    InitialInv(w);
    RunKeepsInv(w, actions);
    var v := After(w, actions);
    forall e | e in v.engines && id in v.engines[e].seen ensures Copy(v, id, v.engines[e].seen[id]) {
      assert Holds(v, v.engines[e]);
    }
  }

  /** No request is ever refused for reusing the key of a different request. */
  lemma NoKeyReuse(w: World, actions: seq<Action>, r: Request)
    requires Initial(w) && Runs(w, actions)
    requires r in After(w, actions).net && r.key in After(w, actions).server.memory
    ensures After(w, actions).server.memory[r.key].request == r
  {
    InitialInv(w);
    RunKeepsInv(w, actions);
  }

  ghost predicate TookEffect(w: World, k: Id, op: Id) {
    && k in w.server.memory && w.server.memory[k].outcome.Applied?
    && k in w.minted && w.minted[k].op == op
  }

  /** However many engines drain, a sealed command takes effect at most once. */
  lemma SealedAtMostOnce(w: World, actions: seq<Action>, op: Id, k1: Id, k2: Id)
    requires Initial(w) && Runs(w, actions)
    requires var v := After(w, actions);
             && TookEffect(v, k1, op) && TookEffect(v, k2, op)
             && op in v.born && Pinned(v.born[op])
    ensures k1 == k2
  {
    InitialInv(w);
    RunKeepsInv(w, actions);
  }

  /** An engine adopts what is stored, or keeps what it had. */
  lemma AdoptsOrKeeps(w: World, a: Action, e: nat)
    requires Enabled(w, a) && e in Next(w, a).engines
    ensures var v := Next(w, a);
            && (v.engines[e].seen != v.stored ==>
                  && e in w.engines && v.engines[e].seen == w.engines[e].seen
                  && !(Persists(a) && e == a.e)
                  && (v.engines[e].inflight.None? ==> w.engines[e].inflight.None?))
            && (forall id | id in w.rank :: id in v.rank && v.rank[id] == w.rank[id])
  {
  }

  // ---------------------------------------------------------------------------
  // Acknowledged commands took effect
  // ---------------------------------------------------------------------------

  ghost predicate AckedTookEffect(w: World) {
    forall op | op in w.acked :: exists k :: TookEffect(w, k, op)
  }

  lemma MintedKept(w: World, a: Action, k: Id)
    requires Inv(w) && Enabled(w, a) && k in w.minted
    ensures k in Next(w, a).minted && Next(w, a).minted[k] == w.minted[k]
  {
    if Persists(a) {
      PersistMints(w, a);
      hide Enabled, Next, Evolves, Books, StoreInv, EngineInv, KeyInv;
      PersistCanCommit(w, a);
    }
  }

  lemma PersistMints(w: World, a: Action)
    requires Enabled(w, a) && Persists(a)
    ensures var m := RewrittenBy(w, a);
            Next(w, a).minted == if m.None? then w.minted
                                 else w.minted[Key(m.value) := Minted(OpId(m.value), RequestOf(m.value))]
  {
  }

  lemma AnswerKept(w: World, a: Action, k: Id)
    requires Enabled(w, a) && k in w.server.memory
    ensures k in Next(w, a).server.memory && Next(w, a).server.memory[k] == w.server.memory[k]
  {
  }

  lemma EffectKept(w: World, a: Action, k: Id, op: Id)
    requires Inv(w) && Enabled(w, a) && TookEffect(w, k, op)
    ensures TookEffect(Next(w, a), k, op)
  {
    MintedKept(w, a, k);
  }

  lemma AckedKept(w: World, a: Action)
    requires Inv(w) && AckedTookEffect(w) && Enabled(w, a)
    ensures AckedTookEffect(Next(w, a))
  {
    var v := Next(w, a);
    forall op | op in v.acked ensures exists k :: TookEffect(v, k, op) {
      if op in w.acked {
        var k :| TookEffect(w, k, op);
        EffectKept(w, a, k, op);
      } else {
        HeldIsIssued(w, a.e);
        EffectKept(w, a, Key(w.engines[a.e].inflight.value), op);
      }
    }
  }

  lemma {:induction false} RunKeepsAcked(w: World, actions: seq<Action>)
    requires Inv(w) && AckedTookEffect(w) && Runs(w, actions)
    ensures AckedTookEffect(After(w, actions))
    decreases |actions|
  {
    if actions != [] {
      StepKeepsInv(w, actions[0]);
      AckedKept(w, actions[0]);
      RunKeepsAcked(Next(w, actions[0]), actions[1..]);
    }
  }

  /** No engine acknowledges a command the server did not apply, even if the answer came late or twice. */
  lemma AcknowledgedTookEffect(w: World, actions: seq<Action>, op: Id)
    requires Initial(w) && Runs(w, actions) && op in After(w, actions).acked
    ensures exists k :: TookEffect(After(w, actions), k, op)
  {
    InitialInv(w);
    RunKeepsAcked(w, actions);
  }
}
