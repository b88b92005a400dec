/** Building concrete runs of the shared world: what matters of a state, and each kind of step on it. */
module Scenes {
  import opened Options
  import opened Commands
  import opened Protocol
  import opened ProtocolSafety
  import opened ExactlyOnce
  import opened KeyChange
  import opened EnqueueOrder
  import QueueSteps

  datatype Scene = Scene(
    q: map<Id, Command>, engines: map<nat, Engine>, server: Server, net: set<Request>,
    minted: map<Id, Minted>, rank: map<Id, nat>, next: nat, acked: set<Id>)

  ghost predicate Shows(v: World, s: Scene) {
    && v.stored == s.q && v.engines == s.engines && v.server == s.server && v.net == s.net
    && v.minted == s.minted && v.rank == s.rank && v.next == s.next && v.acked == s.acked
  }

  /** Who drains, and whether commands are enqueued in time order. */
  datatype Rules = Rules(drainers: set<nat>, timely: bool)

  /** A run so far and where it ends. */
  datatype Course = Course(actions: seq<Action>, world: World)

  /** The course runs from START by the rules, and its end shows the scene. */
  ghost predicate Reaches(rules: Rules, course: Course, s: Scene) {
    && Runs(START, course.actions) && After(START, course.actions) == course.world
    && DrainedBy(course.actions, rules.drainers)
    && (rules.timely ==> TimelyRun(START, course.actions))
    && Shows(course.world, s)
  }

  ghost predicate Allowed(rules: Rules, w: World, a: Action) {
    && (a.Send? || a.Misfire? ==> a.e in rules.drainers)
    && (rules.timely && a.Enqueue? ==> InOrder(w, a.c))
  }

  ghost const START: World :=
    World(map[], map[], Server(map[ITEM := 7], map[]), {}, map[], map[], map[], map[], 0, map[], {}, {})

  const NOTHING: Scene := Scene(map[], map[], Server(map[ITEM := 7], map[]), {}, map[], map[], 0, {})

  const ITEM: EntityId := 1

  /** A command of the item that is its own first attempt. */
  function Command1(kind: Kind, op: Id, base: Version, at: Time): Command {
    Command(0, op, Some(op), Some(op), kind, ITEM, Details(0, None, None, Some(9), Some(true)),
            base, at, 0, Some(Pending), None, None, None, None, None)
  }

  lemma Begins(rules: Rules) returns (c: Course)
    ensures Reaches(rules, c, NOTHING)
  {
    c := Course([], START);
    assert Runs(START, []) && After(START, []) == START;
  }

  lemma Further(rules: Rules, c: Course, s: Scene, a: Action, t: Scene) returns (d: Course)
    requires Reaches(rules, c, s) && Enabled(c.world, a) && Allowed(rules, c.world, a)
    requires Shows(Next(c.world, a), t)
    ensures Reaches(rules, d, t) && d == Course(c.actions + [a], Next(c.world, a))
  {
    assert [a][1..] == [] && Runs(Next(c.world, a), [a][1..]);
    RunsConcat(START, c.actions, [a]);
    if rules.timely {
      TimelyRunsConcat(START, c.actions, [a]);
    }
    d := Course(c.actions + [a], Next(c.world, a));
  }

  lemma {:induction false} TimelyRunsConcat(w: World, p: seq<Action>, q: seq<Action>)
    requires Runs(w, p) && TimelyRun(w, p) && Runs(After(w, p), q) && TimelyRun(After(w, p), q)
    ensures Runs(w, p + q) && TimelyRun(w, p + q)
    decreases |p|
  {
    if p == [] {
      assert p + q == q;
    } else {
      assert (p + q)[1..] == p[1..] + q;
      TimelyRunsConcat(Next(w, p[0]), p[1..], q);
    }
  }

  // ---------------------------------------------------------------------------
  // Steps
  // ---------------------------------------------------------------------------

  lemma Restarted(v: World, s: Scene, e: nat)
    requires Shows(v, s)
    ensures Enabled(v, Restart(e)) && Shows(Next(v, Restart(e)), s.(engines := s.engines[e := Engine(s.q, None)]))
  {
    assert s.q - {} == s.q;
  }

  lemma AndRestarted(rules: Rules, c: Course, s: Scene, e: nat, t: Scene) returns (d: Course)
    requires Reaches(rules, c, s) && t == s.(engines := s.engines[e := Engine(s.q, None)])
    ensures Reaches(rules, d, t)
  {
    hide Next, Enabled;
    Restarted(c.world, s, e);
    d := Further(rules, c, s, Restart(e), t);
  }

  function AfterEnqueueing(s: Scene, e: nat, c: Command): Scene
    requires e in s.engines
  {
    var q := s.q[OpId(c) := c];
    s.(q := q, engines := s.engines[e := Engine(q, s.engines[e].inflight)],
       minted := s.minted[Key(c) := Minted(OpId(c), RequestOf(c))],
       rank := s.rank[OpId(c) := s.next], next := s.next + 1)
  }

  lemma Enqueued(v: World, s: Scene, e: nat, c: Command)
    requires Shows(v, s) && e in s.engines && IsNormal(c) && OpId(c) !in s.rank && Key(c) !in s.minted
    ensures Enabled(v, Enqueue(e, c)) && Shows(Next(v, Enqueue(e, c)), AfterEnqueueing(s, e, c))
  {
    hide RequestOf, IsNormal;
  }

  lemma AndEnqueued(rules: Rules, c: Course, s: Scene, e: nat, x: Command, t: Scene)
    returns (d: Course)
    requires Reaches(rules, c, s) && e in s.engines
    requires IsNormal(x) && OpId(x) !in s.rank && Key(x) !in s.minted && t == AfterEnqueueing(s, e, x)
    requires rules.timely ==>
               forall id | id in s.q && s.q[id].entity == x.entity :: s.q[id].timestamp <= x.timestamp
    ensures Reaches(rules, d, t)
  {
    hide Next, Enabled, IsNormal;
    Enqueued(c.world, s, e, x);
    d := Further(rules, c, s, Enqueue(e, x), t);
  }

  ghost predicate Picks(s: Scene, e: nat, op: Id) {
    && e in s.engines && s.engines[e].inflight.None?
    && Ranked(s.rank, s.engines[e].seen) && Runnable(s.rank, s.engines[e].seen, op, 0)
    && Dispatchable(s.engines[e].seen[op])
  }

  function AfterSending(s: Scene, e: nat, op: Id): Scene
    requires e in s.engines && op in s.engines[e].seen
  {
    var x := s.engines[e];
    s.(net := s.net + {RequestOf(x.seen[op])}, engines := s.engines[e := x.(inflight := Some(x.seen[op]))])
  }

  lemma Sent(v: World, s: Scene, e: nat, op: Id)
    requires Shows(v, s) && Picks(s, e, op)
    ensures Enabled(v, Send(e, op, 0)) && Shows(Next(v, Send(e, op, 0)), AfterSending(s, e, op))
  {
    hide RequestOf, Runnable, Dispatchable;
  }

  lemma AndSent(rules: Rules, c: Course, s: Scene, e: nat, op: Id, t: Scene) returns (d: Course)
    requires Reaches(rules, c, s) && e in rules.drainers && Picks(s, e, op) && t == AfterSending(s, e, op)
    ensures Reaches(rules, d, t)
  {
    hide Next, Enabled;
    Sent(c.world, s, e, op);
    d := Further(rules, c, s, Send(e, op, 0), t);
  }

  lemma Served(v: World, s: Scene, r: Request)
    requires Shows(v, s) && r in s.net
    ensures Enabled(v, Serve(r, true)) && Shows(Next(v, Serve(r, true)), s.(server := Handle(s.server, r, true)))
  {
    hide Handle;
  }

  lemma AndServed(rules: Rules, c: Course, s: Scene, r: Request, t: Scene) returns (d: Course)
    requires Reaches(rules, c, s) && r in s.net && t == s.(server := Handle(s.server, r, true))
    ensures Reaches(rules, d, t)
  {
    hide Next, Enabled, Handle;
    Served(c.world, s, r);
    d := Further(rules, c, s, Serve(r, true), t);
  }

  /** The answer is in, and the next command of the item is known. */
  ghost predicate Acknowledges(s: Scene, e: nat, version: Version, chained: Option<Id>, freshKey: Id) {
    && e in s.engines && s.engines[e].inflight.Some? && freshKey !in s.minted
    && var c := s.engines[e].inflight.value;
       && Key(c) in s.server.memory && s.server.memory[Key(c)] == Answer(RequestOf(c), Applied(version))
       && Ranked(s.rank, s.q) && IsFirstActive(s.rank, s.q - {OpId(c)}, c.entity, chained)
  }

  function AfterAcknowledging(s: Scene, e: nat, version: Version, chained: Option<Id>, freshKey: Id): Scene
    requires e in s.engines && s.engines[e].inflight.Some? && (chained.Some? ==> chained.value in s.q)
  {
    var op := OpId(s.engines[e].inflight.value);
    if chained.None? then
      s.(q := s.q - {op}, engines := s.engines[e := Engine(s.q - {op}, None)], acked := s.acked + {op})
    else
      var d := RebaseChained(s.q[chained.value], version, freshKey, freshKey);
      var q := (s.q - {op})[chained.value := d];
      s.(q := q, engines := s.engines[e := Engine(q, None)], acked := s.acked + {op},
         minted := s.minted[Key(d) := Minted(OpId(d), RequestOf(d))])
  }

  lemma Acknowledged(v: World, s: Scene, e: nat, version: Version, chained: Option<Id>, freshKey: Id)
    requires Shows(v, s) && Acknowledges(s, e, version, chained, freshKey)
    ensures chained.Some? ==> chained.value in s.q
    ensures var a := Ack(e, true, chained, freshKey, freshKey);
            Enabled(v, a) && Shows(Next(v, a), AfterAcknowledging(s, e, version, chained, freshKey))
  {
    hide RequestOf, RebaseChained;
  }

  lemma AndAcknowledged(
    rules: Rules, c: Course, s: Scene, e: nat, version: Version, chained: Option<Id>,
    freshKey: Id, t: Scene) returns (d: Course)
    requires Reaches(rules, c, s) && Acknowledges(s, e, version, chained, freshKey)
    requires chained.Some? ==> chained.value in s.q
    requires t == AfterAcknowledging(s, e, version, chained, freshKey)
    ensures Reaches(rules, d, t)
  {
    hide Next, Enabled;
    Acknowledged(c.world, s, e, version, chained, freshKey);
    d := Further(rules, c, s, Ack(e, true, chained, freshKey, freshKey), t);
  }

  const LOST: Reason := Thrown(0)

  /** The engine gives the dispatch up without an answer; the key stays. */
  function GiveUp(e: nat): Action {
    Fail(e, Unreached(LOST), Unavailable(LOST), true, 0, 90, 90)
  }

  ghost predicate CanGiveUp(s: Scene, e: nat, c: Command) {
    && e in s.engines && s.engines[e] == Engine(map[OpId(c) := c], Some(c)) && s.q == map[OpId(c) := c]
    && IsActive(c) && !c.kind.CrossAccountMove? && 90 !in s.minted
    && Key(c) in s.minted && s.minted[Key(c)] == Minted(OpId(c), RequestOf(c))
  }

  function AfterGivingUp(s: Scene, e: nat, c: Command): Scene {
    var q := map[OpId(c) := MarkRetrying(c, 0, LOST, 90)];
    s.(q := q, engines := s.engines[e := Engine(q, None)])
  }

  lemma GivenUp(v: World, s: Scene, e: nat, c: Command)
    requires Shows(v, s) && CanGiveUp(s, e, c)
    ensures Enabled(v, GiveUp(e)) && Shows(Next(v, GiveUp(e)), AfterGivingUp(s, e, c))
  {
    var d := MarkRetrying(c, 0, LOST, 90);
    GivenUpCopy(v, s, e, c);
    assert s.minted[Key(d) := Minted(OpId(d), RequestOf(d))] == s.minted;
  }

  lemma GivenUpCopy(v: World, s: Scene, e: nat, c: Command)
    requires Shows(v, s) && CanGiveUp(s, e, c)
    ensures var d := MarkRetrying(c, 0, LOST, 90);
            && Enabled(v, GiveUp(e)) && FailedCopy(v, GiveUp(e)) == d
            && RequestOf(d) == RequestOf(c) && OpId(d) == OpId(c)
            && StoredBy(v, GiveUp(e)) == map[OpId(c) := d]
  {
    var d := MarkRetrying(c, 0, LOST, 90);
    assert FailedCopy(v, GiveUp(e)) == d;
    SwapOnly(c, d);
  }

  lemma SwapOnly(c: Command, d: Command)
    requires OpId(c) == OpId(d)
    ensures var q := map[OpId(c) := c];
            QueueSteps.Swap(q, q, map[OpId(d) := d]) == map[OpId(c) := d]
  {
  }

  lemma AndGivenUp(rules: Rules, c: Course, s: Scene, e: nat, x: Command, t: Scene)
    returns (d: Course)
    requires Reaches(rules, c, s) && CanGiveUp(s, e, x) && t == AfterGivingUp(s, e, x)
    ensures Reaches(rules, d, t)
  {
    hide Next, Enabled, MarkRetrying;
    GivenUp(c.world, s, e, x);
    d := Further(rules, c, s, GiveUp(e), t);
  }
}
