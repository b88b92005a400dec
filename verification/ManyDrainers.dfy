/**
 * Any number of engines drain the same queue. An acknowledgement may put a key aside exactly if
 * that key was refused, or was never sent and no other engine can send it from what it holds. In a run that keeps
 * to this, every command takes effect at most once.
 */
module ManyDrainers {
  import opened Options
  import opened Commands
  import opened Protocol
  import opened ProtocolSafety
  import opened Delivery
  import opened ExactlyOnce
  import opened KeyChange
  import QueueSteps

  ghost predicate Refused(w: World, k: Id) {
    k in w.server.memory && !w.server.memory[k].outcome.Applied?
  }

  /** This engine would dispatch a command under this key if its loop came round now. */
  ghost predicate CanSend(w: World, e: nat, k: Id) {
    exists op, now: Time ::
      CanPick(w, e, op, now) && Dispatchable(w.engines[e].seen[op]) && Key(w.engines[e].seen[op]) == k
  }

  ghost predicate Unsent(w: World, k: Id) {
    k in w.minted && w.minted[k].request !in w.net
  }

  /** The server never accepts this key: it refused it, or it cannot parse the precondition. */
  ghost predicate Unacceptable(w: World, k: Id) {
    k in w.minted && (Refused(w, k) || Hopeless(w.minted[k].request))
  }

  /** A key nobody can make take effect any more. */
  ghost predicate PutAside(w: World, k: Id) {
    && k in w.minted
    && (|| Unacceptable(w, k) || w.minted[k].request.kind.CrossAccountMove?
        || (Unsent(w, k) && forall e | e in w.engines :: !CanSend(w, e, k)))
  }

  ghost predicate SupersededPutAside(w: World) {
    forall k | k in w.minted :: w.minted[k].op in w.current && (k != w.current[w.minted[k].op] ==> PutAside(w, k))
  }

  /** The key an acknowledgement puts aside is unacceptable, or was never sent and no other engine can send it. */
  ghost predicate ChainsForAll(w: World, a: Action) {
    ReKeys(w, a) ==>
      var k := Key(w.stored[a.chained.value]);
      Unacceptable(w, k) || (Unsent(w, k) && forall e | e in w.engines && e != a.e :: !CanSend(w, e, k))
  }

  ghost predicate ConsiderateRun(w: World, actions: seq<Action>)
    requires Runs(w, actions)
    decreases |actions|
  {
    actions != [] ==> ChainsForAll(w, actions[0]) && ConsiderateRun(Next(w, actions[0]), actions[1..])
  }

  ghost predicate Considerate(w: World) {
    SupersededPutAside(w) && NoCrossAccountSent(w)
  }

  // ---------------------------------------------------------------------------
  // Keys put aside stay aside
  // ---------------------------------------------------------------------------

  lemma RefusedKept(w: World, a: Action, k: Id)
    requires Enabled(w, a) && Refused(w, k)
    ensures Refused(Next(w, a), k)
  {
    AnswerKept(w, a, k);
  }

  /** A key no engine can send is not sent. */
  lemma UnsendableStaysUnsent(w: World, a: Action, k: Id)
    requires KeyInv(w) && Enabled(w, a) && Unsent(w, k)
    requires a.Send? ==> !CanSend(w, a.e, k)
    ensures w.minted[k].request !in Next(w, a).net
  {
  }

  /** An engine comes to be able to send a key only by adopting a stored command under it. */
  lemma UnsendableStays(w: World, a: Action, k: Id, e: nat)
    requires EngineInv(w) && Enabled(w, a) && e in Next(w, a).engines
    requires forall id | id in Next(w, a).stored :: Key(Next(w, a).stored[id]) != k
    requires e in w.engines && !(Persists(a) && e == a.e) ==> !CanSend(w, e, k)
    ensures !CanSend(Next(w, a), e, k)
  {
    var v := Next(w, a);
    AdoptsOrKeeps(w, a, e);
    if CanSend(v, e, k) {
      var op, now: Time :|
        CanPick(v, e, op, now) && Dispatchable(v.engines[e].seen[op]) && Key(v.engines[e].seen[op]) == k;
      if v.engines[e].seen != v.stored {
        HeldIsIssued(w, e);
        PickedBefore(w, v, e, op, now);
      }
    }
  }

  /** New arrivals do not change what an engine can pick from what it holds. */
  lemma PickedBefore(w: World, v: World, e: nat, op: Id, now: Time)
    requires e in w.engines && e in v.engines && v.engines[e].seen == w.engines[e].seen
    requires v.engines[e].inflight.None? ==> w.engines[e].inflight.None?
    requires forall id | id in w.rank :: id in v.rank && v.rank[id] == w.rank[id]
    requires w.engines[e].seen.Keys <= w.rank.Keys
    requires CanPick(v, e, op, now)
    ensures CanPick(w, e, op, now)
  {
  }

  lemma SupersededNotStored(v: World, k: Id)
    requires StoreInv(v) && k in v.minted && v.minted[k].op in v.current && k != v.current[v.minted[k].op]
    ensures forall id | id in v.stored :: Key(v.stored[id]) != k
  {
    forall id | id in v.stored ensures Key(v.stored[id]) != k {
      assert Copy(v, id, v.stored[id]);
    }
  }

  lemma PutAsideKept(w: World, a: Action, k: Id)
    requires Inv(w) && Enabled(w, a) && PutAside(w, k)
    requires forall id | id in Next(w, a).stored :: Key(Next(w, a).stored[id]) != k
    ensures PutAside(Next(w, a), k)
  {
    hide Next, Enabled, Books, StoreInv, EngineInv, CanSend;
    MintedKept(w, a, k);
    if Refused(w, k) {
      RefusedKept(w, a, k);
    } else if !Hopeless(w.minted[k].request) && !w.minted[k].request.kind.CrossAccountMove? {
      SenderIsKnown(w, a);
      UnsendableStaysUnsent(w, a, k);
      forall e | e in Next(w, a).engines ensures !CanSend(Next(w, a), e, k) {
        UnsendableStays(w, a, k, e);
      }
    }
  }

  lemma SenderIsKnown(w: World, a: Action)
    requires Enabled(w, a)
    ensures a.Send? ==> a.e in w.engines
  {
  }

  // ---------------------------------------------------------------------------
  // Keys that are put aside now
  // ---------------------------------------------------------------------------

  /** The current key changed because the stored copy was rewritten. */
  lemma ChangedMeansRewritten(w: World, a: Action, op: Id)
    requires Inv(w) && Enabled(w, a) && op in w.current
    requires op in Next(w, a).current && Next(w, a).current[op] != w.current[op]
    ensures Persists(a) && RewrittenBy(w, a).Some? && OpId(RewrittenBy(w, a).value) == op
    ensures op in w.stored && op in StoredBy(w, a) && Key(w.stored[op]) == w.current[op]
    ensures StoredBy(w, a)[op] == RewrittenBy(w, a).value && Key(RewrittenBy(w, a).value) != Key(w.stored[op])
  {
    if !Persists(a) || RewrittenBy(w, a).None? || OpId(RewrittenBy(w, a).value) != op {
      CurrentKept(w, a, op);
    } else {
      RewrittenChange(w, a, op);
    }
  }

  lemma RewrittenChange(w: World, a: Action, op: Id)
    requires Inv(w) && Enabled(w, a) && op in w.current && Persists(a)
    requires Next(w, a).current[op] != w.current[op]
    ensures op in w.stored && op in StoredBy(w, a) && Key(w.stored[op]) == w.current[op]
    ensures RewrittenBy(w, a).Some? && StoredBy(w, a)[op] == RewrittenBy(w, a).value
    ensures Key(RewrittenBy(w, a).value) != Key(w.stored[op])
  {
    PersistCanCommit(w, a);
    PersistCurrent(w, a);
    hide Enabled, Next, StoredBy, RewrittenBy, RemovedBy, Books, EngineInv, KeyInv, MayMint, Follows;
    assert op in StoredBy(w, a);
    assert Replaces(w.stored[op], StoredBy(w, a)[op], RewrittenBy(w, a));
    assert Copy(w, op, w.stored[op]);
  }

  lemma PersistCurrent(w: World, a: Action)
    requires Enabled(w, a) && Persists(a)
    ensures Next(w, a).current == w.current + DurableKeys(StoredBy(w, a))
  {
  }

  /** A refused dispatch: the copy that was rewritten is the one that was sent. */
  lemma RefusalPutsAside(w: World, a: Action, op: Id)
    requires Inv(w) && NoCrossAccountSent(w) && Enabled(w, a) && a.Fail?
    requires RewrittenBy(w, a).Some? && OpId(RewrittenBy(w, a).value) == op
    requires op in w.stored && op in StoredBy(w, a) && StoredBy(w, a)[op] == RewrittenBy(w, a).value
    requires Key(RewrittenBy(w, a).value) != Key(w.stored[op])
    ensures Refused(w, Key(w.stored[op]))
  {
    var c := w.engines[a.e].inflight.value;
    assert Holds(w, w.engines[a.e]);
    FailureUsesEffort(c, a.reply, a.current, a.now, a.freshKey, a.freshCopy);
    assert w.stored[op] == c;
  }

  /** A cross-account move is put under a new key without ever having been sent. */
  lemma MisfirePutsAside(w: World, a: Action, op: Id)
    requires Inv(w) && Enabled(w, a) && a.Misfire?
    requires RewrittenBy(w, a).Some? && OpId(RewrittenBy(w, a).value) == op
    requires op in w.stored && op in StoredBy(w, a) && StoredBy(w, a)[op] == RewrittenBy(w, a).value
    requires Key(RewrittenBy(w, a).value) != Key(w.stored[op])
    ensures var k := Key(w.stored[op]); k in w.minted && w.minted[k].request.kind.CrossAccountMove?
  {
    hide Books, KeyInv, EngineInv;
    assert Copy(w, op, w.stored[op]);
  }

  lemma ChainPutsAside(w: World, a: Action, op: Id)
    requires Inv(w) && Enabled(w, a) && a.Ack? && ChainsForAll(w, a)
    requires RewrittenBy(w, a).Some? && OpId(RewrittenBy(w, a).value) == op
    requires op in w.stored && Key(RewrittenBy(w, a).value) != Key(w.stored[op])
    ensures var k := Key(w.stored[op]);
            Unacceptable(w, k)
            || (Unsent(w, k) && Next(w, a).net == w.net
                && forall e | e in w.engines && e != a.e :: !CanSend(w, e, k))
  {
    hide Books, EngineInv, KeyInv, Follows, CanSend, Unacceptable, Unsent;
    assert Copy(w, a.chained.value, w.stored[a.chained.value]);
    assert ReKeys(w, a);
  }

  lemma NewlyPutAside(w: World, a: Action, op: Id)
    requires Inv(w) && Considerate(w) && Enabled(w, a) && ChainsForAll(w, a) && StoreInv(Next(w, a))
    requires op in w.current && op in Next(w, a).current && Next(w, a).current[op] != w.current[op]
    ensures PutAside(Next(w, a), w.current[op])
  {
    hide Next, Enabled, StoredBy, RewrittenBy, Books, EngineInv, KeyInv, CanSend, SupersededPutAside, Follows, ReKeys;
    hide NoCrossAccountSent, ChainsForAll, Persists, RequestOf;
    var k := w.current[op];
    ChangedMeansRewritten(w, a, op);
    assert Copy(w, op, w.stored[op]);
    MintedKept(w, a, k);
    SupersededNotStored(Next(w, a), k);
    if a.Fail? {
      RefusalPutsAside(w, a, op);
      RefusedKept(w, a, k);
    } else if a.Misfire? {
      MisfirePutsAside(w, a, op);
    } else {
      OnlyThesePut(w, a);
      ChainPutsAside(w, a, op);
      if Refused(w, k) {
        RefusedKept(w, a, k);
      } else if !Hopeless(w.minted[k].request) {
        forall e | e in Next(w, a).engines ensures !CanSend(Next(w, a), e, k) {
          UnsendableStays(w, a, k, e);
        }
      }
    }
  }

  lemma OnlyThesePut(w: World, a: Action)
    requires Enabled(w, a) && Persists(a) && RewrittenBy(w, a).Some?
    ensures a.Ack? || a.Fail? || a.Misfire?
  {
  }

  /** A key recorded for a copy that lost its compare-and-swap is nobody's. */
  lemma FreshKeyIsUnsendable(w: World, a: Action, k: Id)
    requires Inv(w) && Enabled(w, a) && k !in w.minted && k in Next(w, a).minted
    requires forall id | id in Next(w, a).stored :: Key(Next(w, a).stored[id]) != k
    ensures Next(w, a).minted[k].request !in Next(w, a).net
    ensures forall e | e in Next(w, a).engines :: !CanSend(Next(w, a), e, k)
  {
    hide Next, Enabled, CanSend, StoreInv, KeyInv, Books;
    forall e | e in w.engines ensures !CanSend(w, e, k) {
      UnmintedIsUnsendable(w, e, k);
    }
    forall e | e in Next(w, a).engines ensures !CanSend(Next(w, a), e, k) {
      UnsendableStays(w, a, k, e);
    }
    FreshIsUnsent(w, a, k);
  }

  lemma UnmintedIsUnsendable(w: World, e: nat, k: Id)
    requires EngineInv(w) && e in w.engines && k !in w.minted
    ensures !CanSend(w, e, k)
  {
    HeldIsIssued(w, e);
  }

  lemma FreshIsUnsent(w: World, a: Action, k: Id)
    requires KeyInv(w) && Enabled(w, a) && k !in w.minted && k in Next(w, a).minted
    ensures Next(w, a).minted[k].request !in Next(w, a).net
  {
  }

  lemma StepKeepsConsiderate(w: World, a: Action)
    requires Inv(w) && Considerate(w) && Enabled(w, a) && ChainsForAll(w, a)
    ensures Inv(Next(w, a)) && Considerate(Next(w, a))
  {
    StepKeepsInv(w, a);
    NoCrossAccountKept(w, a);
    var v := Next(w, a);
    forall k | k in v.minted
      ensures v.minted[k].op in v.current && (k != v.current[v.minted[k].op] ==> PutAside(v, k))
    {
      KeyAt(w, a, k);
    }
  }

  lemma CurrentOfMinted(w: World, k: Id)
    requires Books(w) && KeyInv(w) && k in w.minted
    ensures w.minted[k].op in w.current
  {
  }

  lemma KeyAt(w: World, a: Action, k: Id)
    requires Inv(w) && Considerate(w) && Enabled(w, a) && ChainsForAll(w, a) && Inv(Next(w, a))
    requires k in Next(w, a).minted
    ensures var v := Next(w, a); v.minted[k].op in v.current && (k != v.current[v.minted[k].op] ==> PutAside(v, k))
  {
    hide Next, Enabled, Books, StoreInv, EngineInv, KeyInv, PutAside, ChainsForAll, NoCrossAccountSent;
    CurrentOfMinted(Next(w, a), k);
    if k != Next(w, a).current[Next(w, a).minted[k].op] {
      SupersededNotStored(Next(w, a), k);
      if k !in w.minted {
        FreshKeyIsUnsendable(w, a, k);
        UnsendableIsPutAside(Next(w, a), k);
      } else {
        MintedKept(w, a, k);
        if k != w.current[w.minted[k].op] {
          PutAsideKept(w, a, k);
        } else {
          NewlyPutAside(w, a, w.minted[k].op);
        }
      }
    }
  }

  lemma UnsendableIsPutAside(v: World, k: Id)
    requires k in v.minted && v.minted[k].request !in v.net
    requires forall e | e in v.engines :: !CanSend(v, e, k)
    ensures PutAside(v, k)
  {
  }

  lemma {:induction false} RunKeepsConsiderate(w: World, actions: seq<Action>)
    requires Inv(w) && Considerate(w) && Runs(w, actions) && ConsiderateRun(w, actions)
    ensures Inv(After(w, actions)) && Considerate(After(w, actions))
    decreases |actions|
  {
    if actions != [] {
      StepKeepsConsiderate(w, actions[0]);
      RunKeepsConsiderate(Next(w, actions[0]), actions[1..]);
    }
  }

  lemma PutAsideHasNoEffect(w: World, k: Id, op: Id)
    requires KeyInv(w) && NoCrossAccountSent(w) && PutAside(w, k)
    ensures !TookEffect(w, k, op)
  {
  }

  lemma NotTwiceConsiderate(v: World, op: Id)
    requires Inv(v) && Considerate(v)
    ensures !Twice(v, op)
  {
    if Twice(v, op) {
      var k1, k2 :| k1 != k2 && TookEffect(v, k1, op) && TookEffect(v, k2, op);
      var k := if k1 != v.current[op] then k1 else k2;
      CurrentOfMinted(v, k);
      PutAsideHasNoEffect(v, k, op);
    }
  }

  lemma ConsiderateNeverTwice(v: World, actions: seq<Action>, op: Id)
    requires Inv(v) && Considerate(v) && Runs(v, actions) && ConsiderateRun(v, actions)
    ensures !Twice(After(v, actions), op)
  {
    RunKeepsConsiderate(v, actions);
    NotTwiceConsiderate(After(v, actions), op);
  }

  /** However many engines drain, every ordinary command takes effect at most once in a considerate run. */
  lemma AtMostOnceForAll(w: World, actions: seq<Action>, op: Id, k1: Id, k2: Id)
    requires Initial(w) && Runs(w, actions) && ConsiderateRun(w, actions)
    requires TookEffect(After(w, actions), k1, op) && TookEffect(After(w, actions), k2, op)
    ensures k1 == k2
  {
    InitialInv(w);
    ConsiderateNeverTwice(w, actions, op);
  }

  /** And every acknowledged command took effect exactly once. */
  lemma AcknowledgedExactlyOnceForAll(w: World, actions: seq<Action>, op: Id)
    requires Initial(w) && Runs(w, actions) && ConsiderateRun(w, actions) && op in After(w, actions).acked
    ensures exists k :: TookEffect(After(w, actions), k, op)
                        && forall k' | TookEffect(After(w, actions), k', op) :: k' == k
  {
    AcknowledgedTookEffect(w, actions, op);
    var k :| TookEffect(After(w, actions), k, op);
    forall k' | TookEffect(After(w, actions), k', op) ensures k' == k {
      AtMostOnceForAll(w, actions, op, k', k);
    }
  }

  // ---------------------------------------------------------------------------
  // The exact condition
  // ---------------------------------------------------------------------------

  lemma {:induction false} QuietRunIsConsiderate(w: World, actions: seq<Action>)
    requires Runs(w, actions) && forall a | a in actions :: !a.Ack?
    ensures ConsiderateRun(w, actions)
    decreases |actions|
  {
    if actions != [] {
      assert actions[0] in actions;
      QuietRunIsConsiderate(Next(w, actions[0]), actions[1..]);
    }
  }

  lemma QuietLeads(v: World, actions: seq<Action>, z: World, senders: set<nat>)
    requires Leads(v, actions, z, senders)
    ensures Runs(v, actions) && After(v, actions) == z && ConsiderateRun(v, actions)
  {
    QuietRunIsConsiderate(v, actions);
  }

  /** The key put aside was sent and can be accepted: serving both requests in time does it. */
  lemma SentKeyGoesTwice(w: World, a: Action) returns (actions: seq<Action>)
    requires Inv(w) && ReKeys(w, a)
    requires var k := Key(w.stored[a.chained.value]); !Unacceptable(w, k) && !Unsent(w, k)
    ensures Runs(Next(w, a), actions) && ConsiderateRun(Next(w, a), actions)
    ensures Twice(After(Next(w, a), actions), a.chained.value)
  {
    var f, v := a.chained.value, Next(w, a);
    ChainedIsSendable(w, a);
    ReKeyedHasTwoKeys(w, a);
    actions := SendableGoesTwiceFor(v, a.e, f, RequestOf(w.stored[f]), RequestOf(ChainedCopy(w, a)), {a.e});
  }

  lemma SendableGoesTwiceFor(v: World, e: nat, f: Id, first: Request, second: Request, senders: set<nat>)
    returns (actions: seq<Action>)
    requires Enabled(v, Send(e, f, 0)) && TwoKeys(v, e, f, first, second) && e in senders
    requires first in v.net && !Hopeless(first)
    requires first.key in v.server.memory ==> v.server.memory[first.key].outcome.Applied?
    ensures Runs(v, actions) && ConsiderateRun(v, actions) && Twice(After(v, actions), f)
  {
    hide Enabled, TwoKeys, Twice;
    var z;
    actions, z := BothTakeEffect(v, e, f, first, second, senders);
    QuietLeads(v, actions, z, senders);
  }

  /** Another engine still sends the key put aside: it does so, and then both requests are served. */
  lemma SendableKeyGoesTwice(w: World, a: Action, e: nat) returns (actions: seq<Action>)
    requires Inv(w) && ReKeys(w, a) && e in w.engines && e != a.e
    requires var k := Key(w.stored[a.chained.value]);
             !Unacceptable(w, k) && Unsent(w, k) && CanSend(w, e, k)
    ensures Runs(Next(w, a), actions) && ConsiderateRun(Next(w, a), actions)
    ensures Twice(After(Next(w, a), actions), a.chained.value)
  {
    var f, v := a.chained.value, Next(w, a);
    var first := RequestOf(w.stored[f]);
    ChainedIsSendable(w, a);
    ReKeyedHasTwoKeys(w, a);
    var now := StillSends(w, a, e);
    var u := SentByOther(v, e, a.e, f, now, first, RequestOf(ChainedCopy(w, a)));
    var more := SendableGoesTwiceFor(u, a.e, f, first, RequestOf(ChainedCopy(w, a)), {a.e});
    actions := [Send(e, f, now)] + more;
    assert actions[1..] == more;
  }

  /** The other engine is not affected by the acknowledgement. */
  lemma StillSends(w: World, a: Action, e: nat) returns (now: Time)
    requires Inv(w) && ReKeys(w, a) && e in w.engines && e != a.e
    requires CanSend(w, e, Key(w.stored[a.chained.value]))
    ensures Enabled(Next(w, a), Send(e, a.chained.value, now))
    ensures e in w.engines && a.chained.value in w.engines[e].seen && e in Next(w, a).engines
    ensures Next(w, a).engines[e] == w.engines[e]
    ensures RequestOf(w.engines[e].seen[a.chained.value]) == RequestOf(w.stored[a.chained.value])
  {
    var f := a.chained.value;
    var k := Key(w.stored[f]);
    var op;
    op, now :| CanPick(w, e, op, now) && Dispatchable(w.engines[e].seen[op]) && Key(w.engines[e].seen[op]) == k;
    SameKeySameCommand(w, e, f, op);
    OthersAfterAck(w, a, e);
  }

  lemma SameKeySameCommand(w: World, e: nat, f: Id, op: Id)
    requires StoreInv(w) && EngineInv(w) && e in w.engines && op in w.engines[e].seen && f in w.stored
    requires Key(w.engines[e].seen[op]) == Key(w.stored[f])
    ensures op == f && RequestOf(w.engines[e].seen[op]) == RequestOf(w.stored[f])
  {
    HeldIsIssued(w, e);
    assert Copy(w, f, w.stored[f]) && Copy(w, op, w.engines[e].seen[op]);
  }

  lemma OthersAfterAck(w: World, a: Action, e: nat)
    requires Enabled(w, a) && a.Ack? && e in w.engines && e != a.e
    ensures e in Next(w, a).engines && Next(w, a).engines[e] == w.engines[e] && Next(w, a).rank == w.rank
  {
  }

  /** Its request goes out; the acknowledging engine is not affected. */
  lemma SentByOther(v: World, e: nat, d: nat, f: Id, now: Time, first: Request, second: Request) returns (u: World)
    requires Enabled(v, Send(e, f, now)) && Enabled(v, Send(d, f, 0)) && e != d
    requires first == RequestOf(v.engines[e].seen[f]) && TwoKeys(v, d, f, first, second)
    ensures u == Next(v, Send(e, f, now))
    ensures Enabled(u, Send(d, f, 0)) && TwoKeys(u, d, f, first, second)
    ensures first in u.net && u.server == v.server
  {
    u := Next(v, Send(e, f, now));
  }

  lemma InconsiderateGoesTwice(w: World, a: Action)
    requires Inv(w) && ReKeys(w, a) && !ChainsForAll(w, a)
    ensures exists actions ::
              Runs(Next(w, a), actions) && ConsiderateRun(Next(w, a), actions)
              && Twice(After(Next(w, a), actions), a.chained.value)
  {
    var k := Key(w.stored[a.chained.value]);
    if !Unsent(w, k) {
      var actions := SentKeyGoesTwice(w, a);
    } else {
      var e :| e in w.engines && e != a.e && CanSend(w, e, k);
      var actions := SendableKeyGoesTwice(w, a, e);
    }
  }

  lemma ConsiderateStaysOnce(w: World, a: Action)
    requires Inv(w) && Considerate(w) && ReKeys(w, a) && ChainsForAll(w, a)
    ensures forall actions | Runs(Next(w, a), actions) && ConsiderateRun(Next(w, a), actions) ::
              !Twice(After(Next(w, a), actions), a.chained.value)
  {
    StepKeepsConsiderate(w, a);
    var v := Next(w, a);
    forall actions | Runs(v, actions) && ConsiderateRun(v, actions)
      ensures !Twice(After(v, actions), a.chained.value)
    {
      ConsiderateNeverTwice(v, actions, a.chained.value);
    }
  }

  /**
   * The exact condition for any number of engines: an acknowledgement that puts a key aside keeps the promise
   * in every continuation if and only if that key was refused or cannot be parsed, or was never sent and no
   * other engine can send it from what it holds.
   */
  lemma KeyChangeIsSafeIffForAll(w: World, a: Action)
    requires Inv(w) && Considerate(w) && ReKeys(w, a)
    ensures ChainsForAll(w, a)
       <==> forall actions | Runs(Next(w, a), actions) && ConsiderateRun(Next(w, a), actions) ::
              !Twice(After(Next(w, a), actions), a.chained.value)
  {
    if ChainsForAll(w, a) {
      ConsiderateStaysOnce(w, a);
    } else {
      InconsiderateGoesTwice(w, a);
    }
  }
}
