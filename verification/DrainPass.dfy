/**
 * One drain pass over one account's queue when nobody else writes it. The network, the server
 * and the clock are an arbitrary environment that answers every dispatch.
 */
module DrainPass {
  import opened Options
  import opened Commands
  import opened QueueMerge
  import opened MergeLaws
  import opened QueueSteps
  import opened Refinement

  /** How the environment answers one dispatch, and the environment afterwards. */
  datatype Reaction<S> = Reaction(reply: Reply, current: Authoritative, freshKey: Id, freshCopy: Id, next: S)

  datatype Surroundings<!S> = Surroundings(clock: S -> Time, respond: (S, Command) -> Reaction<S>)

  datatype Pass<S> = Pass(queue: seq<Command>, attempted: set<Id>, world: S, sent: seq<Command>)

  /** What a queue can still cost: the remaining attempts of its active commands. */
  function Work(q: seq<Command>): nat {
    if q == [] then 0 else Effort(q[0]) + Work(q[1..])
  }

  function Picked<S>(env: Surroundings<S>, p: Pass<S>): Option<Command> {
    FirstRunnable([], p.queue, p.attempted, env.clock(p.world))
  }

  function Replaced(q: seq<Command>, d: Command): seq<Command> {
    Edited(q, map[OpId(d) := d])
  }

  /** One iteration of the drain loop: dispatch c and settle the answer. */
  function Turn<S>(env: Surroundings<S>, p: Pass<S>, c: Command): Pass<S> {
    var r := env.respond(p.world, c);
    if r.reply.Accepted? then
      Pass(Acknowledge(p.queue, OpId(c), c.entity, r.reply.version, r.freshKey, r.freshCopy),
           p.attempted, r.next, p.sent + [c])
    else
      Pass(Replaced(p.queue, AfterFailure(c, r.reply, r.current, env.clock(r.next), r.freshKey, r.freshCopy)),
           if r.reply.Unreached? || r.reply.Unexpected? then p.attempted + {OpId(c)} else p.attempted,
           r.next, p.sent + [c])
  }

  // ---------------------------------------------------------------------------
  // Every iteration uses up work
  // ---------------------------------------------------------------------------

  lemma {:induction false} WithoutUsesWork(q: seq<Command>, c: Command)
    requires c in q
    ensures Work(Without(q, {OpId(c)})) + Effort(c) <= Work(q)
  {
    if c != q[0] {
      WithoutUsesWork(q[1..], c);
    } else {
      WithoutAddsNoWork(q[1..], {OpId(c)});
    }
  }

  lemma {:induction false} WithoutAddsNoWork(q: seq<Command>, ids: set<Id>)
    ensures Work(Without(q, ids)) <= Work(q)
  {
    if q != [] {
      WithoutAddsNoWork(q[1..], ids);
    }
  }

  lemma {:induction false} ChainAddsNoWork(
    q: seq<Command>, entity: EntityId, version: Version, freshKey: Id, freshCopy: Id)
    ensures Work(Chain(q, entity, version, freshKey, freshCopy)) <= Work(q)
  {
    if q != [] && !(q[0].entity == entity && IsActive(q[0])) {
      ChainAddsNoWork(q[1..], entity, version, freshKey, freshCopy);
    }
  }

  lemma {:induction false} ReplacedAbsent(q: seq<Command>, d: Command)
    requires OpId(d) !in Ids(q)
    ensures Replaced(q, d) == q
  {
    if q != [] {
      ReplacedAbsent(q[1..], d);
    }
  }

  lemma {:induction false} ReplacedUsesWork(q: seq<Command>, c: Command, d: Command)
    requires Unique(q) && c in q && OpId(d) == OpId(c) && Effort(d) < Effort(c)
    ensures Work(Replaced(q, d)) < Work(q)
  {
    if q[0] == c {
      ReplacedAbsent(q[1..], d);
    } else {
      MemberInMap(q[1..], c);
      ReplacedUsesWork(q[1..], c, d);
    }
  }

  lemma {:induction false} PickedIsQueued(before: seq<Command>, q: seq<Command>, attempted: set<Id>, now: Time)
    requires FirstRunnable(before, q, attempted, now).Some?
    ensures var c := FirstRunnable(before, q, attempted, now).value;
            c in q && IsReady(c, now) && OpId(c) !in attempted && IsActive(c)
    decreases |q|
  {
    if !(IsReady(q[0], now) && OpId(q[0]) !in attempted && !AnyActive(before, q[0].entity)) {
      PickedIsQueued(before + [q[0]], q[1..], attempted, now);
    }
  }

  lemma AcknowledgeUsesWork(
    q: seq<Command>, c: Command, version: Option<Version>, freshKey: Id, freshCopy: Id)
    requires Unique(q) && c in q && IsActive(c)
    ensures var r := Acknowledge(q, OpId(c), c.entity, version, freshKey, freshCopy);
            Work(r) < Work(q) && Unique(r)
  {
    var rest := Without(q, {OpId(c)});
    WithoutUsesWork(q, c);
    WithoutIs(q, {OpId(c)});
    if version.Some? {
      ChainAddsNoWork(rest, c.entity, version.value, freshKey, freshCopy);
      ChainIs(rest, c.entity, version.value, freshKey, freshCopy);
    }
  }

  lemma ReplacedUnique(q: seq<Command>, d: Command)
    requires Unique(q) && OpId(d) in Ids(q)
    ensures Unique(Replaced(q, d)) && MapOf(Replaced(q, d)) == MapOf(q)[OpId(d) := d]
  {
    EditedIs(q, map[OpId(d) := d]);
    assert MapOf(q) + map[OpId(d) := d] == MapOf(q)[OpId(d) := d];
  }

  lemma TurnUsesWork<S>(env: Surroundings<S>, p: Pass<S>, c: Command)
    requires Unique(p.queue) && c in p.queue && IsActive(c)
    ensures Work(Turn(env, p, c).queue) < Work(p.queue) && Unique(Turn(env, p, c).queue)
  {
    var r := env.respond(p.world, c);
    if r.reply.Accepted? {
      AcknowledgeUsesWork(p.queue, c, r.reply.version, r.freshKey, r.freshCopy);
    } else {
      var d := AfterFailure(c, r.reply, r.current, env.clock(r.next), r.freshKey, r.freshCopy);
      FailureUsesEffort(c, r.reply, r.current, env.clock(r.next), r.freshKey, r.freshCopy);
      MemberInMap(p.queue, c);
      ReplacedUsesWork(p.queue, c, d);
      ReplacedUnique(p.queue, d);
    }
  }

  /** The whole pass. */
  function Drained<S>(env: Surroundings<S>, p: Pass<S>): Pass<S>
    requires Unique(p.queue)
    decreases Work(p.queue)
  {
    var next := Picked(env, p);
    if next.None? then p
    else
      PickedIsQueued([], p.queue, p.attempted, env.clock(p.world));
      TurnUsesWork(env, p, next.value);
      Drained(env, Turn(env, p, next.value))
  }

  // ---------------------------------------------------------------------------
  // Main results about any environment
  // ---------------------------------------------------------------------------

  /** However the network behaves, a pass makes at most Work(queue) dispatches. */
  lemma {:induction false} DispatchesAreBounded<S>(env: Surroundings<S>, p: Pass<S>)
    requires Unique(p.queue)
    ensures |p.sent| <= |Drained(env, p).sent| <= |p.sent| + Work(p.queue) - Work(Drained(env, p).queue)
    decreases Work(p.queue)
  {
    var next := Picked(env, p);
    if next.Some? {
      PickedIsQueued([], p.queue, p.attempted, env.clock(p.world));
      TurnUsesWork(env, p, next.value);
      DispatchesAreBounded(env, Turn(env, p, next.value));
    }
  }

  /** Nothing runnable is left when a pass ends. */
  lemma {:induction false} NothingRunnableLeft<S>(env: Surroundings<S>, p: Pass<S>)
    requires Unique(p.queue)
    ensures Picked(env, Drained(env, p)).None? && Unique(Drained(env, p).queue)
    decreases Work(p.queue)
  {
    var next := Picked(env, p);
    if next.Some? {
      PickedIsQueued([], p.queue, p.attempted, env.clock(p.world));
      TurnUsesWork(env, p, next.value);
      NothingRunnableLeft(env, Turn(env, p, next.value));
    }
  }

  /** What one dispatch comes to: its answer is settled on the queue, and a lost one is remembered for this pass. */
  lemma TurnOutcome<S>(env: Surroundings<S>, p: Pass<S>, c: Command)
    requires Unique(p.queue) && c in p.queue && IsActive(c)
    ensures var r, t := env.respond(p.world, c), Turn(env, p, c);
            && t.world == r.next && t.sent == p.sent + [c]
            && (r.reply.Accepted? ==> OpId(c) !in Ids(t.queue) && t.attempted == p.attempted)
            && (!r.reply.Accepted? ==>
                  MapOf(t.queue) == MapOf(p.queue)[OpId(c) :=
                    AfterFailure(c, r.reply, r.current, env.clock(r.next), r.freshKey, r.freshCopy)])
            && (r.reply.Unreached? || r.reply.Unexpected? ==> t.attempted == p.attempted + {OpId(c)})
            && (r.reply.Refused? || r.reply.NotFound? || r.reply.Invalid? ==> t.attempted == p.attempted)
  {
    var r := env.respond(p.world, c);
    WithoutIs(p.queue, {OpId(c)});
    if r.reply.Accepted? {
      if r.reply.version.Some? {
        ChainIds(Without(p.queue, {OpId(c)}), c.entity, r.reply.version.value, r.freshKey, r.freshCopy);
      }
    } else {
      FailureUsesEffort(c, r.reply, r.current, env.clock(r.next), r.freshKey, r.freshCopy);
      MemberInMap(p.queue, c);
      ReplacedUnique(p.queue, AfterFailure(c, r.reply, r.current, env.clock(r.next), r.freshKey, r.freshCopy));
    }
  }

  lemma {:induction false} ChainIds(q: seq<Command>, entity: EntityId, version: Version, freshKey: Id, freshCopy: Id)
    ensures Ids(Chain(q, entity, version, freshKey, freshCopy)) == Ids(q)
  {
    if q != [] && !(q[0].entity == entity && IsActive(q[0])) {
      ChainIds(q[1..], entity, version, freshKey, freshCopy);
    }
  }

  /** A command whose answer was lost is not dispatched again in the same pass. */
  lemma {:induction false} LostOncePerPass<S>(env: Surroundings<S>, p: Pass<S>, op: Id)
    requires Unique(p.queue) && op in p.attempted
    ensures var z := Drained(env, p);
            && |p.sent| <= |z.sent| && z.sent[..|p.sent|] == p.sent && op in z.attempted
            && forall i | |p.sent| <= i < |z.sent| :: OpId(z.sent[i]) != op
    decreases Work(p.queue)
  {
    var next := Picked(env, p);
    if next.Some? {
      var t := Turn(env, p, next.value);
      PickedIsQueued([], p.queue, p.attempted, env.clock(p.world));
      TurnUsesWork(env, p, next.value);
      TurnOutcome(env, p, next.value);
      LostOncePerPass(env, t, op);
      assert t.sent == p.sent + [next.value];
      var z := Drained(env, t);
      assert z.sent[..|p.sent|] == z.sent[..|t.sent|][..|p.sent|];
      assert z.sent[|p.sent|] == z.sent[..|t.sent|][|p.sent|];
    }
  }

  /** The command that delays an entity is staged, applying, backing off, or was attempted in this pass. */
  predicate Delayed(c: Command, attempted: set<Id>, now: Time) {
    || c.status in {Some(Staged), Some(Applying)}
    || (c.nextAttemptAt.Some? && c.nextAttemptAt.value > now)
    || OpId(c) in attempted
  }

  lemma {:induction false} FirstActiveConcat(p: seq<Command>, q: seq<Command>, entity: EntityId)
    ensures FirstActive(p + q, entity)
         == if FirstActive(p, entity).Some? then FirstActive(p, entity) else FirstActive(q, entity)
  {
    if p == [] {
      assert p + q == q;
    } else {
      assert (p + q)[1..] == p[1..] + q;
      FirstActiveConcat(p[1..], q, entity);
    }
  }

  lemma {:induction false} PickedNoneMeansDelayed(
    before: seq<Command>, q: seq<Command>, attempted: set<Id>, now: Time, entity: EntityId)
    requires FirstRunnable(before, q, attempted, now).None?
    requires FirstActive(before, entity).None? && FirstActive(q, entity).Some?
    ensures Delayed(FirstActive(q, entity).value, attempted, now)
    decreases |q|
  {
    FirstActiveConcat(before, [q[0]], entity);
    if q[0].entity != entity || !IsActive(q[0]) {
      PickedNoneMeansDelayed(before + [q[0]], q[1..], attempted, now, entity);
    }
  }

  /** When a pass ends, what holds an entity back is the entity's own first active command. */
  lemma OnlyOwnEntityDelays<S>(env: Surroundings<S>, p: Pass<S>, entity: EntityId)
    requires Unique(p.queue)
    ensures var z := Drained(env, p);
            FirstActive(z.queue, entity).Some? ==>
              Delayed(FirstActive(z.queue, entity).value, z.attempted, env.clock(z.world))
  {
    NothingRunnableLeft(env, p);
    var z := Drained(env, p);
    if FirstActive(z.queue, entity).Some? {
      PickedNoneMeansDelayed([], z.queue, z.attempted, env.clock(z.world), entity);
    }
  }

  /** Everything handed to the server is the first active command of its entity. */
  lemma {:induction false} PickedIsFirstActive(
    before: seq<Command>, q: seq<Command>, attempted: set<Id>, now: Time)
    requires FirstRunnable(before, q, attempted, now).Some?
    ensures var c := FirstRunnable(before, q, attempted, now).value;
            FirstActive(before + q, c.entity) == Some(c)
    decreases |q|
  {
    if IsReady(q[0], now) && OpId(q[0]) !in attempted && !AnyActive(before, q[0].entity) {
      FirstActiveConcat(before, q, q[0].entity);
    } else {
      assert before + q == (before + [q[0]]) + q[1..];
      PickedIsFirstActive(before + [q[0]], q[1..], attempted, now);
    }
  }

  /** The commands of one entity, in queue order. */
  function OfEntity(q: seq<Command>, entity: EntityId): seq<Command> {
    if q == [] then []
    else (if q[0].entity == entity then [q[0]] else []) + OfEntity(q[1..], entity)
  }

  /** All commands of the entity, and no other. */
  lemma {:induction false} OfEntityIs(q: seq<Command>, entity: EntityId, c: Command)
    ensures c in OfEntity(q, entity) <==> c in q && c.entity == entity
  {
    if q != [] {
      OfEntityIs(q[1..], entity, c);
    }
  }

  lemma {:induction false} OfEntityConcat(p: seq<Command>, q: seq<Command>, entity: EntityId)
    ensures OfEntity(p + q, entity) == OfEntity(p, entity) + OfEntity(q, entity)
  {
    if p == [] {
      assert p + q == q;
    } else {
      assert (p + q)[1..] == p[1..] + q;
      OfEntityConcat(p[1..], q, entity);
    }
  }

  lemma {:induction false} WithoutOther(q: seq<Command>, c: Command, entity: EntityId)
    requires Unique(q) && c in q && c.entity != entity
    ensures OfEntity(Without(q, {OpId(c)}), entity) == OfEntity(q, entity)
  {
    if q[0] == c {
      WithoutIs(q[1..], {OpId(c)});
    } else {
      MemberInMap(q[1..], c);
      WithoutOther(q[1..], c, entity);
    }
  }

  lemma {:induction false} ChainOther(
    q: seq<Command>, own: EntityId, version: Version, freshKey: Id, freshCopy: Id, entity: EntityId)
    requires own != entity
    ensures OfEntity(Chain(q, own, version, freshKey, freshCopy), entity) == OfEntity(q, entity)
  {
    if q != [] && !(q[0].entity == own && IsActive(q[0])) {
      ChainOther(q[1..], own, version, freshKey, freshCopy, entity);
    }
  }

  lemma {:induction false} ReplacedOther(q: seq<Command>, c: Command, d: Command, entity: EntityId)
    requires Unique(q) && c in q && OpId(d) == OpId(c) && d.entity == c.entity != entity
    ensures OfEntity(Replaced(q, d), entity) == OfEntity(q, entity)
  {
    if q[0] == c {
      ReplacedAbsent(q[1..], d);
    } else {
      MemberInMap(q[1..], c);
      ReplacedOther(q[1..], c, d, entity);
    }
  }

  /** Settling one dispatch leaves every other entity's commands exactly as they were. */
  lemma TurnTouchesOneEntity<S>(env: Surroundings<S>, p: Pass<S>, c: Command, entity: EntityId)
    requires Unique(p.queue) && c in p.queue && IsActive(c) && c.entity != entity
    ensures OfEntity(Turn(env, p, c).queue, entity) == OfEntity(p.queue, entity)
  {
    var r := env.respond(p.world, c);
    if r.reply.Accepted? {
      WithoutOther(p.queue, c, entity);
      if r.reply.version.Some? {
        ChainOther(Without(p.queue, {OpId(c)}), c.entity, r.reply.version.value, r.freshKey, r.freshCopy, entity);
      }
    } else {
      FailureUsesEffort(c, r.reply, r.current, env.clock(r.next), r.freshKey, r.freshCopy);
      var d := AfterFailure(c, r.reply, r.current, env.clock(r.next), r.freshKey, r.freshCopy);
      ReplacedOther(p.queue, c, d, entity);
    }
  }
}
