/**
 * A queue that is the only writer of its items. The server keeps whole items; it is the
 * server of the shared world with contents added. A queue whose sealed commands name the revision their
 * predecessor produces goes through in one pass without a single conflict; a first command without ciphertext
 * may name an outdated revision, which costs it one more dispatch.
 */
module SoleWriter {
  import opened Options
  import opened Commands
  import opened QueueMerge
  import opened MergeLaws
  import opened QueueSteps
  import opened Refinement
  import opened DrainPass
  import opened Protocol
  import opened Etag

  // ---------------------------------------------------------------------------
  // A server with item contents
  // ---------------------------------------------------------------------------

  datatype Item = Item(
    version: Version, vaultId: Id, category: Option<nat>, payload: Option<nat>, favorite: bool, trashed: bool)

  type Items = map<EntityId, Item>

  /** spare is larger than every id in use. */
  datatype Remote = Remote(items: Items, memory: map<Id, Answer>, spare: Id)

  function Versions(items: Items): map<EntityId, Version> {
    map e | e in items :: items[e].version
  }

  /** The checks the server makes besides the precondition. */
  predicate Allowed(items: Items, kind: Kind, entity: EntityId, details: Details) {
    match kind
    case RestoreItem => entity in items && items[entity].trashed
    case PermanentDelete => entity in items && items[entity].trashed
    case Move => entity in items && !items[entity].trashed && items[entity].vaultId == details.vaultId
    case _ => true
  }

  /** Only trashed items are restored or deleted for good, and only untrashed ones moved, out of their own vault. */
  lemma AllowedIff(items: Items, kind: Kind, entity: EntityId, details: Details)
    ensures Allowed(items, kind, entity, details)
       <==> && (kind == RestoreItem || kind == PermanentDelete || kind == Move ==> entity in items)
            && (kind == RestoreItem || kind == PermanentDelete ==> items[entity].trashed)
            && (kind == Move ==> !items[entity].trashed && items[entity].vaultId == details.vaultId)
  {
  }

  function Rewritten(item: Item, kind: Kind, details: Details): Item {
    var next := item.(version := item.version + 1);
    match kind
    case Update => next.(payload := details.payload)
    case Delete => next.(trashed := true)
    case RestoreItem => next.(trashed := false)
    case Move => next.(vaultId := details.targetVaultId.GetOr(item.vaultId), payload := details.payload)
    case ToggleFavorite => next.(favorite := details.favorite.GetOr(false))
    case _ => next
  }

  /** What an accepted command does to the items. It does not depend on revision or key. */
  function Effect(items: Items, kind: Kind, entity: EntityId, details: Details): Items {
    if kind.Create? then
      items[entity := Item(1, details.vaultId, details.category, details.payload, false, false)]
    else if entity !in items then items
    else if kind.PermanentDelete? then items - {entity}
    else items[entity := Rewritten(items[entity], kind, details)]
  }

  /** The fields an accepted command changes, kind by kind; every other item stays. */
  lemma EffectIs(items: Items, kind: Kind, entity: EntityId, details: Details)
    requires kind.Create? || entity in items
    ensures var after := Effect(items, kind, entity, details);
            && (forall e | e != entity :: (e in after <==> e in items) && (e in items ==> after[e] == items[e]))
            && (kind.PermanentDelete? <==> entity !in after)
            && (!kind.PermanentDelete? ==>
                  var b := after[entity];
                  if kind.Create? then
                    && b.version == 1 && b.vaultId == details.vaultId && b.category == details.category
                    && b.payload == details.payload && !b.favorite && !b.trashed
                  else
                    var a := items[entity];
                    && b.version == a.version + 1 && b.category == a.category
                    && b.payload == (if kind == Update || kind == Move then details.payload else a.payload)
                    && b.trashed == (kind == Delete || (a.trashed && kind != RestoreItem))
                    && b.favorite == (if kind == ToggleFavorite then details.favorite == Some(true) else a.favorite)
                    && b.vaultId == (if kind == Move && details.targetVaultId.Some? then details.targetVaultId.value
                                     else a.vaultId))
  {
  }

  function EffectOf(items: Items, c: Command): Items {
    Effect(items, c.kind, c.entity, c.details)
  }

  /** The queued commands carried out one after the other. */
  function Folded(items: Items, q: seq<Command>): Items
    decreases |q|
  {
    if q == [] then items else Folded(EffectOf(items, q[0]), q[1..])
  }

  function Executed(s: Remote, r: Request): Remote {
    if r.key in s.memory then s
    else
      var outcome := Decide(Versions(s.items), r, Allowed(s.items, r.kind, r.entity, r.details));
      Remote(if outcome.Applied? then Effect(s.items, r.kind, r.entity, r.details) else s.items,
             s.memory[r.key := Answer(r, outcome)], s.spare)
  }

  /** Forgetting the contents gives exactly the server of the shared world. */
  lemma ExecutedIsHandle(s: Remote, r: Request)
    ensures var after := Executed(s, r);
            Server(Versions(after.items), after.memory)
            == Handle(Server(Versions(s.items), s.memory), r, Allowed(s.items, r.kind, r.entity, r.details))
  {
    var versions := Versions(s.items);
    if r.key !in s.memory {
      var outcome := Decide(versions, r, Allowed(s.items, r.kind, r.entity, r.details));
      assert Versions(Executed(s, r).items) == Land(versions, r, outcome);
    }
  }

  /** A server that is always reached, and whose entity tags the engine parses. */
  function Answering(s: Remote, c: Command): Reaction<Remote> {
    var after := Executed(s, RequestOf(c));
    var reply :=
      match after.memory[Key(c)].outcome
      case Applied(version) => Accepted(StrongNumericEtag(FormatEtag(version)))
      case Stale => Refused
      case Gone => NotFound(Thrown(404))
      case Rejected => Invalid(Thrown(400));
    var current :=
      if c.entity in after.items then
        var version := after.items[c.entity].version;
        Read(StrongNumericEtag(FormatEtag(version)), Some(version))
      else Unavailable(Thrown(404));
    Reaction(reply, current, s.spare, s.spare, after.(spare := s.spare + 1))
  }

  function Reachable(now: Time): Surroundings<Remote> {
    Surroundings((s: Remote) => now, (s: Remote, c: Command) => Answering(s, c))
  }

  // ---------------------------------------------------------------------------
  // Queues that fit the server
  // ---------------------------------------------------------------------------

  /** The revision an accepted command lands on. */
  function Landing(items: Items, c: Command): Version {
    if c.kind.Create? || c.entity !in items then 1 else items[c.entity].version + 1
  }

  /** The server keeps versions as positive 32-bit integers. */
  const MAX_ITEM_VERSION: nat := 0x7FFF_FFFF

  /** c is next for its item: started says that an earlier command of the queue was for the same item. */
  predicate Fits(items: Items, started: set<EntityId>, c: Command, now: Time) {
    && IsReady(c, now) && Dispatchable(c)
    && Allowed(items, c.kind, c.entity, c.details) && Landing(items, c) <= MAX_ITEM_VERSION
    && (c.kind.Create? ==> c.entity !in items && c.entity !in started)
    && (!c.kind.Create? ==>
          && c.entity in items && items[c.entity].version > 0
          && (c.baseVersion == items[c.entity].version
              || (!CarriesSealedCiphertext(c) && (c.entity in started || CanCatchUp(c)))))
  }

  /** The server reads the revision it names, and a refusal leaves it attempts. */
  predicate CanCatchUp(c: Command) {
    c.baseVersion > 0 && c.retryCount + 1 < MAX_RETRY_COUNT
  }

  /** The first command of its item, against a revision the item is no longer at. */
  predicate Outdated(items: Items, started: set<EntityId>, c: Command) {
    !c.kind.Create? && c.entity !in started && c.entity in items && c.baseVersion != items[c.entity].version
  }

  /** What is dispatched: every command in order, an outdated one twice. */
  function Dispatches(items: Items, started: set<EntityId>, q: seq<Command>): seq<Id>
    decreases |q|
  {
    if q == [] then []
    else
      (if Outdated(items, started, q[0]) then [OpId(q[0])] else []) + [OpId(q[0])]
        + Dispatches(EffectOf(items, q[0]), started + {q[0].entity}, q[1..])
  }

  /** No first command is outdated. */
  predicate UpToDate(items: Items, started: set<EntityId>, q: seq<Command>)
    decreases |q|
  {
    q != [] ==>
      && !Outdated(items, started, q[0])
      && UpToDate(EffectOf(items, q[0]), started + {q[0].entity}, q[1..])
  }

  /** Then each command is dispatched once. */
  lemma {:induction false} UpToDateDispatchesOnce(items: Items, started: set<EntityId>, q: seq<Command>)
    requires UpToDate(items, started, q)
    ensures Dispatches(items, started, q) == OpIds(q)
    decreases |q|
  {
    if q != [] {
      UpToDateDispatchesOnce(EffectOf(items, q[0]), started + {q[0].entity}, q[1..]);
    }
  }

  predicate InLine(items: Items, started: set<EntityId>, q: seq<Command>, now: Time)
    decreases |q|
  {
    q != [] ==> Fits(items, started, q[0], now) && InLine(EffectOf(items, q[0]), started + {q[0].entity}, q[1..], now)
  }

  /** Every command has a key of its own that the server has not seen. */
  predicate NewKeys(q: seq<Command>, s: Remote) {
    (forall k | k in s.memory :: k < s.spare) && OwnKeys(q, s.memory.Keys, s.spare)
  }

  predicate OwnKeys(q: seq<Command>, used: set<Id>, spare: Id) {
    q != [] ==> Key(q[0]) !in used && Key(q[0]) < spare && OwnKeys(q[1..], used + {Key(q[0])}, spare)
  }

  lemma {:induction false} OwnKeysFewer(q: seq<Command>, used: set<Id>, fewer: set<Id>, spare: Id)
    requires OwnKeys(q, used, spare) && fewer <= used
    ensures OwnKeys(q, fewer, spare + 1)
  {
    if q != [] {
      OwnKeysFewer(q[1..], used + {Key(q[0])}, fewer + {Key(q[0])}, spare);
    }
  }

  lemma {:induction false} OwnKeysAvoid(q: seq<Command>, used: set<Id>, spare: Id, bound: Id)
    requires OwnKeys(q, used, spare) && spare <= bound
    ensures OwnKeys(q, used + {bound}, bound + 1)
  {
    if q != [] {
      OwnKeysAvoid(q[1..], used + {Key(q[0])}, spare, bound);
      assert used + {Key(q[0])} + {bound} == used + {bound} + {Key(q[0])};
    }
  }

  lemma {:induction false} ChainOwnKeys(
    q: seq<Command>, used: set<Id>, spare: Id, entity: EntityId, version: Version, freshCopy: Id)
    requires OwnKeys(q, used, spare) && forall k | k in used :: k < spare
    ensures OwnKeys(Chain(q, entity, version, spare, freshCopy), used, spare + 1)
  {
    if q != [] {
      if q[0].entity == entity && IsActive(q[0]) {
        var d := RebaseChained(q[0], version, spare, freshCopy);
        OwnKeysFewer(q[1..], used + {Key(q[0])}, used, spare);
        OwnKeysFewer(q[1..], used + {Key(q[0])}, used + {Key(q[0])}, spare);
        if Key(d) == spare {
          OwnKeysFewerThenAvoid(q[1..], used, Key(q[0]), spare);
        }
      } else {
        ChainOwnKeys(q[1..], used + {Key(q[0])}, spare, entity, version, freshCopy);
      }
    }
  }

  lemma OwnKeysFewerThenAvoid(q: seq<Command>, used: set<Id>, k: Id, spare: Id)
    requires OwnKeys(q, used + {k}, spare)
    ensures OwnKeys(q, used + {spare}, spare + 1)
  {
    OwnKeysAvoid(q, used + {k}, spare, spare);
    OwnKeysSubset(q, used + {k} + {spare}, used + {spare}, spare + 1);
  }

  lemma {:induction false} OwnKeysSubset(q: seq<Command>, used: set<Id>, fewer: set<Id>, spare: Id)
    requires OwnKeys(q, used, spare) && fewer <= used
    ensures OwnKeys(q, fewer, spare)
  {
    if q != [] {
      OwnKeysSubset(q[1..], used + {Key(q[0])}, fewer + {Key(q[0])}, spare);
    }
  }

  // ---------------------------------------------------------------------------
  // One turn
  // ---------------------------------------------------------------------------

  /** After an acknowledgement the next command of the item names the revision just reached. */
  lemma {:induction false} ChainInLine(
    items: Items, started: set<EntityId>, q: seq<Command>, now: Time,
    entity: EntityId, version: Version, freshKey: Id, freshCopy: Id)
    requires InLine(items, started + {entity}, q, now)
    requires entity in items ==> items[entity].version == version
    ensures InLine(items, started - {entity}, Chain(q, entity, version, freshKey, freshCopy), now)
    ensures Folded(items, Chain(q, entity, version, freshKey, freshCopy)) == Folded(items, q)
    ensures Dispatches(items, started - {entity}, Chain(q, entity, version, freshKey, freshCopy))
         == Dispatches(items, started + {entity}, q)
    decreases |q|
  {
    if q != [] {
      var c, next := q[0], EffectOf(items, q[0]);
      if c.entity == entity {
        assert started + {entity} + {entity} == started + {entity} == (started - {entity}) + {entity};
      } else {
        assert started + {entity} + {c.entity} == (started + {c.entity}) + {entity};
        assert (started + {c.entity}) - {entity} == (started - {entity}) + {c.entity};
        ChainInLine(next, started + {c.entity}, q[1..], now, entity, version, freshKey, freshCopy);
      }
    }
  }

  lemma FrontIsAccepted(s: Remote, q: seq<Command>, now: Time)
    requires q != [] && InLine(s.items, {}, q, now) && NewKeys(q, s) && !Outdated(s.items, {}, q[0])
    ensures var r := Answering(s, q[0]);
            && r.reply == Accepted(Some(Landing(s.items, q[0])))
            && r.freshKey == s.spare
            && r.next.items == EffectOf(s.items, q[0])
            && r.next.memory == s.memory[Key(q[0]) := Answer(RequestOf(q[0]), Applied(Landing(s.items, q[0])))]
            && r.next.spare == s.spare + 1
    ensures q[0].entity in EffectOf(s.items, q[0]) ==>
              EffectOf(s.items, q[0])[q[0].entity].version == Landing(s.items, q[0])
  {
    var c := q[0];
    EtagRoundTrip(Landing(s.items, c));
    assert Decide(Versions(s.items), RequestOf(c), true) == Applied(Landing(s.items, c));
  }

  function OpIds(q: seq<Command>): seq<Id> {
    if q == [] then [] else [OpId(q[0])] + OpIds(q[1..])
  }

  lemma {:induction false} OpIdsAppend(p: seq<Command>, c: Command)
    ensures OpIds(p + [c]) == OpIds(p) + [OpId(c)]
  {
    if p != [] {
      assert (p + [c])[1..] == p[1..] + [c];
      OpIdsAppend(p[1..], c);
    }
  }

  predicate GoesThrough(p: Pass<Remote>, now: Time) {
    InLine(p.world.items, {}, p.queue, now) && NewKeys(p.queue, p.world)
  }

  lemma FrontTurn(p: Pass<Remote>, now: Time)
    requires Unique(p.queue) && p.queue != [] && GoesThrough(p, now) && !Outdated(p.world.items, {}, p.queue[0])
    ensures var c, s, t := p.queue[0], p.world, Turn(Reachable(now), p, p.queue[0]);
            && t.queue == Chain(p.queue[1..], c.entity, Landing(s.items, c), s.spare, s.spare)
            && t.attempted == p.attempted && t.sent == p.sent + [c]
            && t.world == Answering(s, c).next
  {
    FrontIsAccepted(p.world, p.queue, now);
    WithoutIs(p.queue[1..], {OpId(p.queue[0])});
  }

  /** One turn acknowledges the front of the queue; what is left still fits the server. */
  lemma FrontGoesThrough(p: Pass<Remote>, now: Time)
    requires Unique(p.queue) && p.queue != [] && GoesThrough(p, now) && !Outdated(p.world.items, {}, p.queue[0])
    ensures var t := Turn(Reachable(now), p, p.queue[0]);
            && t.attempted == p.attempted && t.sent == p.sent + [p.queue[0]]
            && GoesThrough(t, now)
            && Folded(t.world.items, t.queue) == Folded(p.world.items, p.queue)
            && [OpId(p.queue[0])] + Dispatches(t.world.items, {}, t.queue) == Dispatches(p.world.items, {}, p.queue)
  {
    hide Turn, Answering, Executed, Fits, Chain, Landing, Outdated, NewKeys;
    var s, q, c := p.world, p.queue, p.queue[0];
    var v := Landing(s.items, c);
    FrontTurn(p, now);
    FrontIsAccepted(s, q, now);
    FrontKeys(s, q, now);
    assert {} + {c.entity} == {c.entity} && {} - {c.entity} == {};
    ChainInLine(EffectOf(s.items, c), {}, q[1..], now, c.entity, v, s.spare, s.spare);
  }

  /** After the acknowledgement of the front every command has a key of its own again. */
  lemma FrontKeys(s: Remote, q: seq<Command>, now: Time)
    requires q != [] && InLine(s.items, {}, q, now) && NewKeys(q, s) && !Outdated(s.items, {}, q[0])
    ensures NewKeys(Chain(q[1..], q[0].entity, Landing(s.items, q[0]), s.spare, s.spare), Answering(s, q[0]).next)
  {
    var c, v := q[0], Landing(s.items, q[0]);
    FrontIsAccepted(s, q, now);
    hide Answering, Executed, Chain, Landing, Outdated, InLine;
    assert (s.memory[Key(c) := Answer(RequestOf(c), Applied(v))]).Keys == s.memory.Keys + {Key(c)};
    ChainOwnKeys(q[1..], s.memory.Keys + {Key(c)}, s.spare, c.entity, v, s.spare);
  }

  /** A refused command against the revision that was read: the same request under a new key. */
  function CaughtUp(c: Command, version: Version, freshKey: Id): Command {
    c.(baseVersion := version, attemptId := Some(freshKey), retryCount := c.retryCount + 1, status := Some(Retrying),
       nextAttemptAt := None, lastError := None)
  }

  /** An outdated command is refused, and the answer to reading the item is its revision. */
  lemma OutdatedIsRefused(s: Remote, q: seq<Command>, now: Time)
    requires q != [] && InLine(s.items, {}, q, now) && NewKeys(q, s) && Outdated(s.items, {}, q[0])
    ensures var c, r := q[0], Answering(s, q[0]);
            && r.reply == Refused && r.freshKey == s.spare && c.entity in s.items
            && AfterFailure(c, r.reply, r.current, now, r.freshKey, r.freshCopy)
               == CaughtUp(c, s.items[c.entity].version, s.spare)
            && r.next.items == s.items && r.next.spare == s.spare + 1
            && r.next.memory == s.memory[Key(c) := Answer(RequestOf(c), Stale)]
  {
    var c := q[0];
    EtagRoundTrip(s.items[c.entity].version);
    assert Decide(Versions(s.items), RequestOf(c), true) == Stale;
  }

  /** Nothing but the revision, the key and the retry state of the front changes, so the queue still fits. */
  lemma CaughtUpFits(s: Remote, q: seq<Command>, now: Time)
    requires q != [] && InLine(s.items, {}, q, now) && Outdated(s.items, {}, q[0])
    ensures var q' := [CaughtUp(q[0], s.items[q[0].entity].version, s.spare)] + q[1..];
            && InLine(s.items, {}, q', now) && Folded(s.items, q') == Folded(s.items, q)
            && [OpId(q[0])] + Dispatches(s.items, {}, q') == Dispatches(s.items, {}, q)
            && !Outdated(s.items, {}, q'[0])
  {
    var d := CaughtUp(q[0], s.items[q[0].entity].version, s.spare);
    var q' := [d] + q[1..];
    assert q'[1..] == q[1..] && EffectOf(s.items, d) == EffectOf(s.items, q[0]);
    var rest := Dispatches(EffectOf(s.items, d), {} + {d.entity}, q[1..]);
    assert [OpId(d)] + ([] + [OpId(d)] + rest) == [OpId(d)] + [OpId(d)] + rest;
  }

  lemma RefusedTurn(p: Pass<Remote>, now: Time)
    requires Unique(p.queue) && p.queue != [] && GoesThrough(p, now) && Outdated(p.world.items, {}, p.queue[0])
    ensures var c, s, t := p.queue[0], p.world, Turn(Reachable(now), p, p.queue[0]);
            && c.entity in s.items && t.queue == [CaughtUp(c, s.items[c.entity].version, s.spare)] + p.queue[1..]
            && t.attempted == p.attempted && t.sent == p.sent + [c] && t.world == Answering(s, c).next
  {
    hide InLine, NewKeys;
    OutdatedIsRefused(p.world, p.queue, now);
    var d := CaughtUp(p.queue[0], p.world.items[p.queue[0].entity].version, p.world.spare);
    ReplacedAbsent(p.queue[1..], d);
  }

  /** One turn brings an outdated front up to date. */
  lemma FrontCatchesUp(p: Pass<Remote>, now: Time)
    requires Unique(p.queue) && p.queue != [] && GoesThrough(p, now) && Outdated(p.world.items, {}, p.queue[0])
    ensures var t := Turn(Reachable(now), p, p.queue[0]);
            && t.attempted == p.attempted && t.sent == p.sent + [p.queue[0]]
            && GoesThrough(t, now)
            && Folded(t.world.items, t.queue) == Folded(p.world.items, p.queue)
            && [OpId(p.queue[0])] + Dispatches(t.world.items, {}, t.queue) == Dispatches(p.world.items, {}, p.queue)
  {
    var s, q, c := p.world, p.queue, p.queue[0];
    RefusedTurn(p, now);
    OutdatedIsRefused(s, q, now);
    CaughtUpFits(s, q, now);
    hide Turn, Answering, Executed, InLine, Folded, Dispatches, Outdated, AfterFailure, NewKeys;
    CaughtUpKeys(s, q, CaughtUp(c, s.items[c.entity].version, s.spare), Answering(s, c).next);
  }

  lemma CaughtUpKeys(s: Remote, q: seq<Command>, d: Command, t: Remote)
    requires q != [] && NewKeys(q, s) && Key(d) == s.spare && t.spare == s.spare + 1
    requires t.memory == s.memory[Key(q[0]) := Answer(RequestOf(q[0]), Stale)]
    ensures NewKeys([d] + q[1..], t)
  {
    assert ([d] + q[1..])[1..] == q[1..];
    assert t.memory.Keys == s.memory.Keys + {Key(q[0])};
    OwnKeysAvoid(q[1..], s.memory.Keys + {Key(q[0])}, s.spare, s.spare);
  }

  /** z is what a pass from p must end in: an empty queue, and everything carried out in order. */
  predicate WentThrough(p: Pass<Remote>, z: Pass<Remote>) {
    && z.queue == [] && z.attempted == {}
    && z.world.items == Folded(p.world.items, p.queue)
    && OpIds(z.sent) == OpIds(p.sent) + Dispatches(p.world.items, {}, p.queue)
  }

  lemma TurnThenRest(p: Pass<Remote>, t: Pass<Remote>, z: Pass<Remote>)
    requires p.queue != [] && WentThrough(t, z)
    requires Folded(t.world.items, t.queue) == Folded(p.world.items, p.queue)
    requires OpIds(t.sent) == OpIds(p.sent) + [OpId(p.queue[0])]
    requires [OpId(p.queue[0])] + Dispatches(t.world.items, {}, t.queue) == Dispatches(p.world.items, {}, p.queue)
    ensures WentThrough(p, z)
  {
    var rest := Dispatches(t.world.items, {}, t.queue);
    assert OpIds(p.sent) + [OpId(p.queue[0])] + rest == OpIds(p.sent) + ([OpId(p.queue[0])] + rest);
  }

  /**
   * One pass acknowledges the whole queue in queue order, each command dispatched once, an outdated one twice, and
   * leaves the server with the queued commands carried out in that order.
   */
  lemma {:induction false} WholeQueueGoesThrough(p: Pass<Remote>, now: Time)
    requires Unique(p.queue) && p.attempted == {} && GoesThrough(p, now)
    ensures WentThrough(p, Drained(Reachable(now), p))
    decreases Work(p.queue)
  {
    if p.queue != [] {
      var t := OneTurn(p, now);
      WholeQueueGoesThrough(t, now);
      TurnThenRest(p, t, Drained(Reachable(now), t));
    } else {
      EmptyPass(p, now);
    }
  }

  lemma EmptyPass(p: Pass<Remote>, now: Time)
    requires p.queue == [] && p.attempted == {}
    ensures WentThrough(p, Drained(Reachable(now), p))
  {
    assert OpIds(p.sent) + [] == OpIds(p.sent);
  }

  lemma OneTurn(p: Pass<Remote>, now: Time) returns (t: Pass<Remote>)
    requires Unique(p.queue) && p.queue != [] && p.attempted == {} && GoesThrough(p, now)
    ensures Unique(t.queue) && t.attempted == {} && GoesThrough(t, now) && Work(t.queue) < Work(p.queue)
    ensures Drained(Reachable(now), p) == Drained(Reachable(now), t)
    ensures Folded(t.world.items, t.queue) == Folded(p.world.items, p.queue)
    ensures OpIds(t.sent) == OpIds(p.sent) + [OpId(p.queue[0])]
    ensures [OpId(p.queue[0])] + Dispatches(t.world.items, {}, t.queue) == Dispatches(p.world.items, {}, p.queue)
  {
    var c := p.queue[0];
    t := Turn(Reachable(now), p, c);
    FrontIsPicked(p, now);
    TurnUsesWork(Reachable(now), p, c);
    OpIdsAppend(p.sent, c);
    hide Turn, GoesThrough, Folded, Dispatches, Outdated;
    if Outdated(p.world.items, {}, c) {
      FrontCatchesUp(p, now);
    } else {
      FrontGoesThrough(p, now);
    }
  }

  lemma FrontIsPicked(p: Pass<Remote>, now: Time)
    requires p.queue != [] && p.attempted == {} && GoesThrough(p, now)
    ensures Picked(Reachable(now), p) == Some(p.queue[0]) && IsActive(p.queue[0])
  {
  }

  // ---------------------------------------------------------------------------
  // A queue written offline
  // ---------------------------------------------------------------------------

  function Offline(id: Id, kind: Kind, base: Version, details: Details): Command {
    Command(0, id, Some(id), Some(id), kind, 1, details, base, id, 0, Some(Pending), None, None, None, None, None)
  }

  const CREATED: Command := Offline(1, Create, 0, Details(5, None, Some(6), Some(7), None))
  const STARRED: Command := Offline(2, ToggleFavorite, 0, Details(5, None, None, None, Some(true)))
  const EDITED: Command := Offline(3, Update, 2, Details(5, None, None, Some(8), None))

  const OFFLINE_QUEUE: seq<Command> := [CREATED, STARRED, EDITED]

  lemma OfflineInLine(now: Time)
    ensures InLine(map[], {}, OFFLINE_QUEUE, now)
    ensures Folded(map[], OFFLINE_QUEUE) == map[1 := Item(3, 5, Some(6), Some(8), true, false)]
  {
    assert [STARRED, EDITED][1..] == [EDITED] && [EDITED][1..] == [] && OFFLINE_QUEUE[1..] == [STARRED, EDITED];
    var one := EffectOf(map[], CREATED);
    var two := EffectOf(one, STARRED);
    var three := EffectOf(two, EDITED);
    assert one == map[1 := Item(1, 5, Some(6), Some(7), false, false)];
    assert two == map[1 := Item(2, 5, Some(6), Some(7), true, false)];
    assert three == map[1 := Item(3, 5, Some(6), Some(8), true, false)];
    assert Folded(three, []) == three && Folded(two, [EDITED]) == three && Folded(one, [STARRED, EDITED]) == three;
    assert {1} + {1} == {1} && {} + {1} == {1};
    assert InLine(two, {1}, [EDITED], now);
    assert InLine(one, {1}, [STARRED, EDITED], now);
  }

  lemma OfflineIsUnique()
    ensures Unique(OFFLINE_QUEUE)
  {
    assert [STARRED, EDITED][1..] == [EDITED] && [EDITED][1..] == [] && OFFLINE_QUEUE[1..] == [STARRED, EDITED];
    assert MapOf([]) == map[] && Ids([EDITED]) == {3};
    assert Unique([EDITED]);
    assert Ids([STARRED, EDITED]) == {2, 3} && Unique([STARRED, EDITED]);
  }

  lemma OfflineOwnKeys()
    ensures OwnKeys(OFFLINE_QUEUE, {}, 4)
  {
    assert [STARRED, EDITED][1..] == [EDITED] && [EDITED][1..] == [] && OFFLINE_QUEUE[1..] == [STARRED, EDITED];
    assert OwnKeys([EDITED], {} + {1} + {2}, 4);
    assert OwnKeys([STARRED, EDITED], {} + {1}, 4);
  }

  /**
   * An item created, starred and edited offline goes through: the star is enqueued against an outdated
   * revision and follows, the edit names the revision the star will produce.
   */
  lemma OfflineEditsFit(now: Time)
    ensures var p := Pass(OFFLINE_QUEUE, {}, Remote(map[], map[], 4), []);
            && Unique(p.queue) && GoesThrough(p, now)
            && Folded(p.world.items, p.queue) == map[1 := Item(3, 5, Some(6), Some(8), true, false)]
  {
    hide InLine, Folded, Unique, OwnKeys;
    OfflineInLine(now);
    OfflineIsUnique();
    OfflineOwnKeys();
    var memory: map<Id, Answer> := map[];
    assert memory.Keys == {};
  }
}
