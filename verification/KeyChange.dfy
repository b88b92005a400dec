/**
 * When the rule for trailing commands is exactly right: putting a key aside at an
 * acknowledgement is harmless if that key can no longer take effect, and in every other case
 * there is a continuation in which the command takes effect twice. A late
 * timestamp reaches such a case.
 */
module KeyChange {
  import opened Options
  import opened Commands
  import opened Protocol
  import opened ProtocolSafety
  import opened Delivery
  import opened ExactlyOnce

  ghost predicate Twice(w: World, op: Id) {
    exists k1, k2 :: k1 != k2 && TookEffect(w, k1, op) && TookEffect(w, k2, op)
  }

  // ---------------------------------------------------------------------------
  // A live key that is put aside can take effect next to the new one
  // ---------------------------------------------------------------------------

  /** What the acknowledgement leaves behind. */
  lemma ReKeyed(w: World, a: Action)
    requires Inv(w) && ReKeys(w, a)
    ensures var f, v := a.chained.value, Next(w, a);
            && f in v.stored && v.stored[f] == ChainedCopy(w, a) && a.e in v.engines
            && v.engines[a.e] == Engine(v.stored, None)
            && v.stored == (w.stored - {OpId(w.engines[a.e].inflight.value)})[f := v.stored[f]]
            && v.rank == w.rank && v.net == w.net && v.server == w.server
            && Key(v.stored[f]) == a.freshKey && a.freshKey !in w.server.memory
            && !CarriesSealedCiphertext(w.stored[f])
  {
    assert Copy(w, a.chained.value, w.stored[a.chained.value]);
  }

  /** The chained command is the next one its engine sends. */
  lemma ChainedIsSendable(w: World, a: Action)
    requires Inv(w) && ReKeys(w, a)
    ensures Enabled(Next(w, a), Send(a.e, a.chained.value, 0))
  {
    ReKeyed(w, a);
    NextInLine(w.rank, w.stored, OpId(w.engines[a.e].inflight.value), a.chained.value, ChainedCopy(w, a));
  }

  lemma NextInLine(rank: map<Id, nat>, q: map<Id, Command>, acked: Id, f: Id, d: Command)
    requires Ranked(rank, q) && IsFirstActive(rank, q - {acked}, d.entity, Some(f))
    requires OpId(d) == f && d.entity == q[f].entity && d.timestamp == q[f].timestamp && IsReady(d, 0)
    ensures Ranked(rank, (q - {acked})[f := d]) && Runnable(rank, (q - {acked})[f := d], f, 0)
  {
  }

  predicate OnlySends(actions: seq<Action>, senders: set<nat>) {
    forall a | a in actions :: a.OtherDevice? || a.Serve? || (a.Send? && a.e in senders)
  }

  /** Actions v comes to from w, none of them an edit of the queue, and sends by these engines only. */
  ghost predicate Leads(w: World, actions: seq<Action>, v: World, senders: set<nat>) {
    Runs(w, actions) && After(w, actions) == v && OnlySends(actions, senders)
  }

  lemma LeadsOn(w: World, p: seq<Action>, v: World, q: seq<Action>, z: World, senders: set<nat>)
    requires Leads(w, p, v, senders) && Leads(v, q, z, senders)
    ensures Leads(w, p + q, z, senders)
  {
    RunsConcat(w, p, q);
  }

  lemma LeadsStep(w: World, a: Action, senders: set<nat>)
    requires Enabled(w, a) && (a.OtherDevice? || a.Serve? || (a.Send? && a.e in senders))
    ensures Leads(w, [a], Next(w, a), senders)
  {
    assert [a][1..] == [] && Runs(Next(w, a), [a][1..]);
  }

  lemma LeadsNowhere(w: World, senders: set<nat>)
    ensures Leads(w, [], w, senders)
  {
  }

  function AtRevision(w: World, entity: EntityId, version: Version): World {
    w.(server := w.server.(versions := w.server.versions[entity := version]))
  }

  /** Other devices can delete an item, create it anew and count it up: any positive revision can come again. */
  lemma BroughtTo(w: World, entity: EntityId, version: Version, senders: set<nat>) returns (actions: seq<Action>)
    requires version > 0
    ensures Leads(w, actions, AtRevision(w, entity, version), senders)
  {
    hide Leads;
    LeadsNowhere(w, senders);
    actions := [];
    var v := w;
    if entity in w.server.versions {
      actions, v := AndOtherDevice(w, actions, v, entity, None, senders);
    }
    actions, v := AndOtherDevice(w, actions, v, entity, Some(1), senders);
    if version > 1 {
      actions, v := AndOtherDevice(w, actions, v, entity, Some(version), senders);
    }
    assert v.server.versions == w.server.versions[entity := version];
    assert v == AtRevision(w, entity, version);
  }

  lemma AndOtherDevice(
    w: World, before: seq<Action>, u: World, entity: EntityId, version: Option<Version>, senders: set<nat>)
    returns (actions: seq<Action>, v: World)
    requires Leads(w, before, u, senders) && Counts(u.server.versions, entity, version)
    ensures Leads(w, actions, v, senders)
    ensures v == u.(server := u.server.(versions :=
              if version.Some? then u.server.versions[entity := version.value] else u.server.versions - {entity}))
  {
    var a := OtherDevice(entity, version);
    v := Next(u, a);
    LeadsStep(u, a, senders);
    LeadsOn(w, before, u, [a], v, senders);
    actions := before + [a];
  }

  /** An unanswered request that names a positive revision can still take effect. */
  lemma CanBeServed(w: World, r: Request, senders: set<nat>) returns (actions: seq<Action>, v: World)
    requires r in w.net && r.key !in w.server.memory && r.key in w.minted
    requires !r.kind.Create? && r.ifMatch.Some? && r.ifMatch.value > 0
    ensures Leads(w, actions, v, senders) && TookEffect(v, r.key, w.minted[r.key].op)
    ensures v == w.(server := v.server)
    ensures forall k | k != r.key :: SameAnswer(w, v, k)
  {
    var version := r.ifMatch.value;
    actions := BroughtTo(w, r.entity, version, senders);
    var u := AtRevision(w, r.entity, version);
    v := Next(u, Serve(r, true));
    LeadsStep(u, Serve(r, true), senders);
    LeadsOn(w, actions, u, [Serve(r, true)], v, senders);
    actions := actions + [Serve(r, true)];
  }

  ghost predicate SameAnswer(w: World, v: World, k: Id) {
    && (k in v.server.memory <==> k in w.server.memory)
    && (k in w.server.memory ==> v.server.memory[k] == w.server.memory[k])
  }

  lemma {:induction false} RunsConcat(w: World, p: seq<Action>, q: seq<Action>)
    requires Runs(w, p) && Runs(After(w, p), q)
    ensures Runs(w, p + q) && After(w, p + q) == After(After(w, p), q)
    decreases |p|
  {
    if p == [] {
      assert p + q == q;
    } else {
      assert (p + q)[1..] == p[1..] + q;
      RunsConcat(Next(w, p[0]), p[1..], q);
    }
  }

  /** A run without an acknowledgement and with one sender is disciplined. */
  lemma {:induction false} QuietRunIsDisciplined(w: World, actions: seq<Action>, d: nat)
    requires Runs(w, actions)
    requires forall a | a in actions :: a.OtherDevice? || a.Serve? || (a.Send? && a.e == d)
    ensures DisciplinedRun(w, actions, d)
    decreases |actions|
  {
    if actions != [] {
      assert actions[0] in actions;
      QuietRunIsDisciplined(Next(w, actions[0]), actions[1..], d);
    }
  }

  /** The continuation that breaks the promise: the new key is sent, and both requests are served in time. */
  lemma BothTakeEffect(v: World, e: nat, op: Id, first: Request, second: Request, senders: set<nat>)
    returns (actions: seq<Action>, z: World)
    requires Enabled(v, Send(e, op, 0)) && TwoKeys(v, e, op, first, second) && e in senders
    requires first in v.net && !Hopeless(first)
    requires first.key in v.server.memory ==> v.server.memory[first.key].outcome.Applied?
    ensures Leads(v, actions, z, senders) && Twice(z, op)
  {
    var u := SentFirst(v, e, op, second, senders);
    var x := u;
    actions := [Send(e, op, 0)];
    if first.key !in v.server.memory {
      var served;
      served, x := CanBeServed(u, first, senders);
      LeadsOn(v, actions, u, served, x, senders);
      actions := actions + served;
    }
    hide Leads;
    assert TookEffect(x, first.key, op) && SameAnswer(u, x, second.key);
    var served;
    served, z := CanBeServed(x, second, senders);
    LeadsOn(v, actions, x, served, z, senders);
    actions := actions + served;
    assert SameAnswer(x, z, first.key);
    assert TookEffect(z, first.key, op) && TookEffect(z, second.key, op);
  }

  lemma SentFirst(v: World, e: nat, op: Id, r: Request, senders: set<nat>) returns (u: World)
    requires Enabled(v, Send(e, op, 0)) && r == RequestOf(v.engines[e].seen[op]) && e in senders
    ensures Leads(v, [Send(e, op, 0)], u, senders)
    ensures u.net == v.net + {r} && u.server == v.server && u.minted == v.minted
  {
    u := Next(v, Send(e, op, 0));
    LeadsStep(v, Send(e, op, 0), senders);
  }

  /** Both keys name the chained command; the new one is unanswered and names the revision the server landed on. */
  ghost predicate TwoKeys(v: World, e: nat, f: Id, first: Request, second: Request) {
    && e in v.engines && f in v.engines[e].seen && second == RequestOf(v.engines[e].seen[f])
    && first.key != second.key && second.key !in v.server.memory
    && first.key in v.minted && v.minted[first.key] == Minted(f, first)
    && second.key in v.minted && v.minted[second.key].op == f
    && !first.kind.Create? && first.ifMatch.Some?
    && !second.kind.Create? && second.ifMatch.Some? && second.ifMatch.value > 0
  }

  lemma ReKeyedHasTwoKeys(w: World, a: Action)
    requires Inv(w) && ReKeys(w, a)
    ensures TwoKeys(Next(w, a), a.e, a.chained.value,
                    RequestOf(w.stored[a.chained.value]), RequestOf(ChainedCopy(w, a)))
    ensures Next(w, a).net == w.net && Next(w, a).server == w.server && Next(w, a).rank == w.rank
    ensures Key(w.stored[a.chained.value]) in w.minted
    ensures w.minted[Key(w.stored[a.chained.value])].request == RequestOf(w.stored[a.chained.value])
  {
    ReKeyed(w, a);
    assert Copy(w, a.chained.value, w.stored[a.chained.value]);
    MintedKept(w, a, Key(w.stored[a.chained.value]));
  }

  lemma LiveKeyTakesEffectTwice(w: World, a: Action, d: nat)
    requires Inv(w) && ReKeys(w, a) && a.e == d
    requires !Dead(w, Key(w.stored[a.chained.value]))
    ensures exists actions ::
              Runs(Next(w, a), actions) && DisciplinedRun(Next(w, a), actions, d)
              && OnlySends(actions, {d}) && Twice(After(Next(w, a), actions), a.chained.value)
  {
    var f, v := a.chained.value, Next(w, a);
    ChainedIsSendable(w, a);
    ReKeyedHasTwoKeys(w, a);
    SendableGoesTwice(v, d, f, RequestOf(w.stored[f]), RequestOf(ChainedCopy(w, a)));
  }

  lemma SendableGoesTwice(v: World, d: nat, f: Id, first: Request, second: Request)
    requires Enabled(v, Send(d, f, 0)) && TwoKeys(v, d, f, first, second)
    requires first in v.net && !Hopeless(first)
    requires first.key in v.server.memory ==> v.server.memory[first.key].outcome.Applied?
    ensures exists actions ::
              Runs(v, actions) && DisciplinedRun(v, actions, d) && OnlySends(actions, {d})
              && Twice(After(v, actions), f)
  {
    hide Enabled, TwoKeys, Twice;
    var actions, z := BothTakeEffect(v, d, f, first, second, {d});
    QuietRunIsDisciplined(v, actions, d);
  }

  lemma NotTwiceHere(v: World, d: nat, op: Id)
    requires Inv(v) && KeyBooks(v, d)
    ensures !Twice(v, op)
  {
    if Twice(v, op) {
      var k1, k2 :| k1 != k2 && TookEffect(v, k1, op) && TookEffect(v, k2, op);
      AtMostOnceHere(v, d, op, k1, k2);
    }
  }

  lemma DisciplinedNeverTwice(v: World, actions: seq<Action>, d: nat, op: Id)
    requires Inv(v) && KeyBooks(v, d) && Runs(v, actions) && DisciplinedRun(v, actions, d)
    ensures !Twice(After(v, actions), op)
  {
    DisciplinedKeepsKeyBooks(v, actions, d);
    NotTwiceHere(After(v, actions), d, op);
  }

  lemma DeadKeyTakesEffectOnce(w: World, a: Action, d: nat)
    requires Inv(w) && KeyBooks(w, d) && SoleDrainer(a, d) && ReKeys(w, a)
    requires Dead(w, Key(w.stored[a.chained.value]))
    ensures forall actions | Runs(Next(w, a), actions) && DisciplinedRun(Next(w, a), actions, d) ::
              !Twice(After(Next(w, a), actions), a.chained.value)
  {
    StepKeepsKeyBooks(w, a, d);
    var v := Next(w, a);
    forall actions | Runs(v, actions) && DisciplinedRun(v, actions, d)
      ensures !Twice(After(v, actions), a.chained.value)
    {
      DisciplinedNeverTwice(v, actions, d, a.chained.value);
    }
  }

  /**
   * The exact condition: an acknowledgement that puts a key aside keeps the promise in every
   * continuation if and only if that key was never sent, was refused, or names a revision no server accepts.
   */
  lemma KeyChangeIsSafeIff(w: World, a: Action, d: nat)
    requires Inv(w) && KeyBooks(w, d) && SoleDrainer(a, d) && ReKeys(w, a)
    ensures Dead(w, Key(w.stored[a.chained.value]))
       <==> forall actions | Runs(Next(w, a), actions) && DisciplinedRun(Next(w, a), actions, d) ::
              !Twice(After(Next(w, a), actions), a.chained.value)
  {
    if Dead(w, Key(w.stored[a.chained.value])) {
      DeadKeyTakesEffectOnce(w, a, d);
    } else {
      RewritesComeFromDrainer(w, a, d);
      LiveKeyTakesEffectTwice(w, a, d);
    }
  }
}
