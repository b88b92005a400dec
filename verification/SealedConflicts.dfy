/**
 * When is a sealed command rightly put in conflict behind an acknowledged one? The acknowledgement compares it
 * with the revision in the answer, while what counts is the revision the item has by then.
 */
module SealedConflicts {
  import opened Options
  import opened Commands
  import opened Protocol
  import opened ProtocolSafety
  import opened Delivery

  /** The item is at this revision. */
  predicate IsAt(w: World, entity: EntityId, version: Version) {
    entity in w.server.versions && w.server.versions[entity] == version
  }

  /** The acknowledgement chains a command with ciphertext. */
  ghost predicate ChainsSealed(w: World, a: Action) {
    && a.Ack? && Enabled(w, a) && a.chained.Some?
    && a.chained.value in w.stored && CarriesSealedCiphertext(w.stored[a.chained.value])
  }

  /** The revision in the answer that is acknowledged. */
  ghost function Reached(w: World, a: Action): Version
    requires a.Ack? && Enabled(w, a)
  {
    w.server.memory[Key(w.engines[a.e].inflight.value)].outcome.version
  }

  /** It conflicts exactly if the item is not at the revision the command names. */
  ghost predicate ConflictsRightly(w: World, a: Action)
    requires ChainsSealed(w, a)
  {
    var f := w.stored[a.chained.value];
    (ChainedCopy(w, a).status == Some(Conflicted)) <==> !IsAt(w, f.entity, f.baseVersion)
  }

  lemma ChainedIsActive(w: World, a: Action)
    requires ChainsSealed(w, a)
    ensures var f := w.stored[a.chained.value];
            IsActive(f) && f.entity == w.engines[a.e].inflight.value.entity
  {
  }

  /** The chained copy is what is stored: in conflict exactly if it names another revision than the answer. */
  lemma SealedConflictsIff(w: World, a: Action)
    requires ChainsSealed(w, a)
    ensures var f := a.chained.value;
            && f in Next(w, a).stored && Next(w, a).stored[f] == ChainedCopy(w, a)
            && (Next(w, a).stored[f].status == Some(Conflicted) <==> w.stored[f].baseVersion != Reached(w, a))
  {
    ChainedIsActive(w, a);
  }

  /**
   * The exact condition in every state: the answer is still the item's revision, or the command names neither
   * of the two.
   */
  lemma ConflictsRightlyIff(w: World, a: Action)
    requires ChainsSealed(w, a)
    ensures var f := w.stored[a.chained.value];
            ConflictsRightly(w, a)
            <==> IsAt(w, f.entity, Reached(w, a))
                 || (f.baseVersion != Reached(w, a) && !IsAt(w, f.entity, f.baseVersion))
  {
    SealedConflictsIff(w, a);
  }

  // ---------------------------------------------------------------------------
  // Along runs
  // ---------------------------------------------------------------------------

  /** No step changes the revision of the item. */
  ghost predicate QuietRun(w: World, actions: seq<Action>, entity: EntityId)
    requires Runs(w, actions)
    decreases |actions|
  {
    actions != [] ==>
      && SameRevision(w, Next(w, actions[0]), entity)
      && QuietRun(Next(w, actions[0]), actions[1..], entity)
  }

  predicate SameRevision(w: World, v: World, entity: EntityId) {
    && (entity in w.server.versions <==> entity in v.server.versions)
    && (entity in w.server.versions ==> w.server.versions[entity] == v.server.versions[entity])
  }

  lemma {:induction false} QuietKeepsRevision(w: World, actions: seq<Action>, entity: EntityId)
    requires Runs(w, actions) && QuietRun(w, actions, entity)
    ensures SameRevision(w, After(w, actions), entity)
    decreases |actions|
  {
    if actions != [] {
      hide Next, Enabled;
      QuietKeepsRevision(Next(w, actions[0]), actions[1..], entity);
    }
  }

  lemma {:induction false} AnswerStays(w: World, actions: seq<Action>, k: Id)
    requires Runs(w, actions) && k in w.server.memory
    ensures k in After(w, actions).server.memory && After(w, actions).server.memory[k] == w.server.memory[k]
    decreases |actions|
  {
    if actions != [] {
      AnswerKept(w, actions[0], k);
      hide Next, Enabled;
      AnswerStays(Next(w, actions[0]), actions[1..], k);
    }
  }

  /** The request under this key was applied, and the item is where that left it. */
  ghost predicate JustApplied(w: World, k: Id) {
    && k in w.server.memory && w.server.memory[k].outcome.Applied?
    && IsAt(w, w.server.memory[k].request.entity, w.server.memory[k].outcome.version)
  }

  /** The acknowledgement is one of this key. */
  ghost predicate AcksKey(w: World, a: Action, k: Id) {
    a.Ack? && Enabled(w, a) && Key(w.engines[a.e].inflight.value) == k
  }

  lemma AckReaches(w: World, actions: seq<Action>, a: Action, k: Id)
    requires Runs(w, actions) && k in w.server.memory && w.server.memory[k].outcome.Applied?
    requires AcksKey(After(w, actions), a, k)
    ensures Reached(After(w, actions), a) == w.server.memory[k].outcome.version
    ensures After(w, actions).engines[a.e].inflight.value.entity == w.server.memory[k].request.entity
  {
    AnswerStays(w, actions, k);
  }

  /** As long as nobody writes the item after the answer, a late acknowledgement conflicts rightly. */
  lemma SealedConflictsRightly(w: World, actions: seq<Action>, a: Action, k: Id)
    requires JustApplied(w, k) && Runs(w, actions) && QuietRun(w, actions, w.server.memory[k].request.entity)
    requires ChainsSealed(After(w, actions), a) && AcksKey(After(w, actions), a, k)
    ensures ConflictsRightly(After(w, actions), a)
  {
    AckReaches(w, actions, a, k);
    QuietKeepsRevision(w, actions, w.server.memory[k].request.entity);
    ChainedIsActive(After(w, actions), a);
    ConflictsRightlyIff(After(w, actions), a);
  }

  /** The item is never deleted for good. */
  ghost predicate StaysThere(w: World, actions: seq<Action>, entity: EntityId)
    requires Runs(w, actions)
    decreases |actions|
  {
    && entity in w.server.versions
    && (actions != [] ==> StaysThere(Next(w, actions[0]), actions[1..], entity))
  }

  lemma RevisionsCountUp(w: World, a: Action, entity: EntityId)
    requires Enabled(w, a) && entity in w.server.versions && entity in Next(w, a).server.versions
    ensures w.server.versions[entity] <= Next(w, a).server.versions[entity]
  {
  }

  lemma {:induction false} BackMeansQuiet(w: World, actions: seq<Action>, entity: EntityId)
    requires Runs(w, actions) && StaysThere(w, actions, entity)
    ensures entity in After(w, actions).server.versions
    ensures w.server.versions[entity] <= After(w, actions).server.versions[entity]
    ensures w.server.versions[entity] == After(w, actions).server.versions[entity] ==> QuietRun(w, actions, entity)
    decreases |actions|
  {
    if actions != [] {
      assert entity in Next(w, actions[0]).server.versions;
      RevisionsCountUp(w, actions[0], entity);
      hide Next, Enabled;
      BackMeansQuiet(Next(w, actions[0]), actions[1..], entity);
    }
  }

  /** An acknowledgement that reaches n judges a sealed command that names base rightly. */
  predicate Judges(w: World, entity: EntityId, n: Version, base: Version) {
    base != n <==> !IsAt(w, entity, base)
  }

  /** That is what conflicting rightly means. */
  lemma RightlyIsJudged(w: World, a: Action)
    requires ChainsSealed(w, a)
    ensures var f := w.stored[a.chained.value];
            ConflictsRightly(w, a) <==> Judges(w, f.entity, Reached(w, a), f.baseVersion)
  {
    SealedConflictsIff(w, a);
  }

  /**
   * The exact condition along runs: while the item exists, whatever sealed command an acknowledgement meets is judged
   * rightly if and only if nobody wrote the item since the answer.
   */
  lemma JudgedRightlyIffQuiet(w: World, actions: seq<Action>, k: Id)
    requires JustApplied(w, k) && Runs(w, actions) && StaysThere(w, actions, w.server.memory[k].request.entity)
    ensures var answer := w.server.memory[k];
            QuietRun(w, actions, answer.request.entity)
            <==> forall base :: Judges(After(w, actions), answer.request.entity, answer.outcome.version, base)
  {
    var entity, n := w.server.memory[k].request.entity, w.server.memory[k].outcome.version;
    BackMeansQuiet(w, actions, entity);
    if QuietRun(w, actions, entity) {
      QuietKeepsRevision(w, actions, entity);
    } else {
      assert !Judges(After(w, actions), entity, n, n);
    }
  }
}
