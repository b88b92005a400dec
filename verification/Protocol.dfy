/**
 * Any number of engines sharing one stored queue, a network that may lose, delay and
 * duplicate requests, and a server that checks the precondition and remembers every
 * answered idempotency key. One account; actions are atomic.
 */
module Protocol {
  import opened Options
  import opened Commands
  import QueueSteps

  // ---------------------------------------------------------------------------
  // The server
  // ---------------------------------------------------------------------------

  /** Creation carries no precondition; every other write names the version it expects. */
  datatype Request = Request(key: Id, kind: Kind, entity: EntityId, details: Details, ifMatch: Option<Version>)

  function RequestOf(c: Command): Request {
    Request(Key(c), c.kind, c.entity, c.details, if c.kind.Create? then None else Some(c.baseVersion))
  }

  /** What is sent: the payload under the attempt's key, with the base revision as precondition unless it creates. */
  lemma RequestOfIs(c: Command)
    ensures var r := RequestOf(c);
            && r.key == (if c.attemptId.Some? then c.attemptId.value else c.id)
            && r.kind == c.kind && r.entity == c.entity && r.details == c.details
            && (c.kind == Create <==> r.ifMatch == None) && (c.kind != Create ==> r.ifMatch == Some(c.baseVersion))
  {
  }

  datatype Outcome = Applied(version: Version) | Stale | Gone | Rejected

  datatype Answer = Answer(request: Request, outcome: Outcome)

  datatype Server = Server(versions: map<EntityId, Version>, memory: map<Id, Answer>)

  /** A precondition the server refuses to parse: it knows positive revisions only. */
  predicate Hopeless(r: Request) {
    !r.kind.Create? && r.ifMatch == Some(0)
  }

  /** What a request that is executed for the first time comes to. */
  function Decide(versions: map<EntityId, Version>, r: Request, valid: bool): Outcome {
    if r.kind.Create? then
      if !valid then Rejected else if r.entity in versions then Stale else Applied(1)
    else if Hopeless(r) then Rejected
    else if r.entity !in versions then Gone
    else if !valid then Rejected
    else if r.ifMatch != Some(versions[r.entity]) then Stale
    else Applied(versions[r.entity] + 1)
  }

  function Land(versions: map<EntityId, Version>, r: Request, outcome: Outcome): map<EntityId, Version> {
    if !outcome.Applied? then versions
    else if r.kind.PermanentDelete? then versions - {r.entity}
    else versions[r.entity := outcome.version]
  }

  /** A remembered key is never executed again. */
  function Handle(s: Server, r: Request, valid: bool): Server {
    if r.key in s.memory then s
    else
      var outcome := Decide(s.versions, r, valid);
      Server(Land(s.versions, r, outcome), s.memory[r.key := Answer(r, outcome)])
  }

  /** Sending a key again, whatever the second request says, executes nothing. */
  lemma ReplayIsHarmless(s: Server, r: Request, again: Request, valid: bool, validAgain: bool)
    requires again.key == r.key
    ensures Handle(Handle(s, r, valid), again, validAgain) == Handle(s, r, valid)
    ensures r.key in Handle(s, r, valid).memory
    ensures forall k | k in s.memory :: k in Handle(s, r, valid).memory && Handle(s, r, valid).memory[k] == s.memory[k]
  {
  }

  /** A request changes an item only if its key is new and it names the item's revision, or creates it. */
  lemma OnlyMatchingWritesLand(s: Server, r: Request, valid: bool, entity: EntityId)
    requires (entity in s.versions) != (entity in Handle(s, r, valid).versions)
             || (entity in s.versions && entity in Handle(s, r, valid).versions
                 && s.versions[entity] != Handle(s, r, valid).versions[entity])
    ensures r.key !in s.memory && r.entity == entity && valid
    ensures if r.kind.Create? then entity !in s.versions && Handle(s, r, valid).versions == s.versions[entity := 1]
            else entity in s.versions && r.ifMatch == Some(s.versions[entity])
    ensures Handle(s, r, valid).memory[r.key].outcome.Applied?
  {
  }

  /**
   * A request under a new key lands exactly if it passes the other checks and creates an absent item or names
   * the revision of a present one; then the item is one revision further, new at 1, or gone. Otherwise nothing changes.
   */
  lemma LandsIff(s: Server, r: Request, valid: bool)
    requires r.key !in s.memory
    ensures var t := Handle(s, r, valid);
            && t.memory == s.memory[r.key := t.memory[r.key]] && t.memory[r.key].request == r
            && (t.memory[r.key].outcome.Applied?
                <==> valid && if r.kind.Create? then r.entity !in s.versions
                              else r.entity in s.versions && s.versions[r.entity] > 0
                                   && r.ifMatch == Some(s.versions[r.entity]))
            && (!t.memory[r.key].outcome.Applied? ==> t.versions == s.versions)
            && (t.memory[r.key].outcome.Applied? ==>
                  var version := if r.kind.Create? then 1 else s.versions[r.entity] + 1;
                  && t.memory[r.key].outcome.version == version
                  && t.versions == if r.kind.PermanentDelete? then s.versions - {r.entity}
                                   else s.versions[r.entity := version])
  {
  }

  /** Why a request did not land: unparseable or forbidden, gone, or against another revision. */
  lemma RefusalIs(s: Server, r: Request, valid: bool)
    requires r.key !in s.memory && !Handle(s, r, valid).memory[r.key].outcome.Applied?
    ensures var outcome := Handle(s, r, valid).memory[r.key].outcome;
            if r.kind.Create? then outcome == if valid then Stale else Rejected
            else if r.ifMatch == Some(0) then outcome == Rejected
            else if r.entity !in s.versions then outcome == Gone
            else outcome == if valid then Stale else Rejected
  {
  }

  // ---------------------------------------------------------------------------
  // The world
  // ---------------------------------------------------------------------------

  /** What an engine last adopted, and the copy it has dispatched and not settled. */
  datatype Engine = Engine(seen: map<Id, Command>, inflight: Option<Command>)

  datatype Minted = Minted(op: Id, request: Request)

  /**
   * stored, engines, server and net are the system; the rest is history: every key with the
   * operation and request it was minted for, the last durable key of each operation, the
   * issue order and its inverse, each command as issued, and the operations removed and acknowledged.
   */
  datatype World = World(
    stored: map<Id, Command>,
    engines: map<nat, Engine>,
    server: Server,
    net: set<Request>,
    minted: map<Id, Minted>,
    current: map<Id, Id>,
    rank: map<Id, nat>,
    arrival: map<nat, Id>,
    next: nat,
    born: map<Id, Command>,
    gone: set<Id>,
    acked: set<Id>)

  datatype Action =
    | Enqueue(e: nat, c: Command)
    | Edit(e: nat, edits: map<Id, LocalEdit>)
    | Cancel(e: nat, op: Id, claimId: Id)
    | Clear(e: nat)
    | ClearEverything(e: nat)
    | Restart(e: nat)
    | Send(e: nat, op: Id, now: Time)
    | Serve(r: Request, valid: bool)
    | OtherDevice(entity: EntityId, version: Option<Version>)
    | Ack(e: nat, readable: bool, chained: Option<Id>, freshKey: Id, freshCopy: Id)
    | Fail(e: nat, reply: Reply, current: Authoritative, attached: bool, now: Time, freshKey: Id, freshCopy: Id)
    | Misfire(e: nat, op: Id, now: Time, error: Reason, freshKey: Id)

  /** Queue order: by time, then by arrival. */
  ghost predicate Before(rank: map<Id, nat>, c: Command, d: Command)
    requires OpId(c) in rank && OpId(d) in rank
  {
    c.timestamp < d.timestamp || (c.timestamp == d.timestamp && rank[OpId(c)] < rank[OpId(d)])
  }

  ghost predicate Ranked(rank: map<Id, nat>, q: map<Id, Command>) {
    forall id | id in q :: id in rank && OpId(q[id]) == id
  }

  /** Ready, and behind no active command of its own entity. */
  ghost predicate Runnable(rank: map<Id, nat>, q: map<Id, Command>, op: Id, now: Time)
    requires Ranked(rank, q)
  {
    && op in q && IsReady(q[op], now)
    && forall id | id in q && id != op && q[id].entity == q[op].entity && Before(rank, q[id], q[op]) ::
         !IsActive(q[id])
  }

  /** The first active command of the entity, if there is one. */
  ghost predicate IsFirstActive(rank: map<Id, nat>, q: map<Id, Command>, entity: EntityId, first: Option<Id>)
    requires Ranked(rank, q)
  {
    match first
    case None => forall id | id in q && q[id].entity == entity :: !IsActive(q[id])
    case Some(f) =>
      && f in q && q[f].entity == entity && IsActive(q[f])
      && forall id | id in q && id != f && q[id].entity == entity && IsActive(q[id]) :: Before(rank, q[f], q[id])
  }

  function DurableKeys(stored: map<Id, Command>): map<Id, Id> {
    map id | id in stored :: Key(stored[id])
  }

  /**
   * The end of a persist pass by engine e: the engine adopts what is stored. The history
   * records the key of a rewritten command and the removed and acknowledged operations.
   */
  function Commit(
    w: World, e: nat, stored: map<Id, Command>, inflight: Option<Command>,
    mint: Option<Command>, removed: set<Id>, acked: set<Id>): World
  {
    w.(stored := stored,
       engines := w.engines[e := Engine(stored, inflight)],
       current := w.current + DurableKeys(stored),
       minted := if mint.None? then w.minted
                 else w.minted[Key(mint.value) := Minted(OpId(mint.value), RequestOf(mint.value))],
       gone := w.gone + removed,
       acked := w.acked + acked)
  }

  function LocalChanges(seen: map<Id, Command>, edits: map<Id, LocalEdit>): map<Id, Command>
    requires edits.Keys <= seen.Keys
  {
    map id | id in edits :: edits[id].Edit(seen[id])
  }

  /** A reply other than acceptance must be what the server remembers, or a lost message. */
  predicate Answered(s: Server, c: Command, reply: Reply) {
    match reply
    case Accepted(_) => false
    case Refused => Key(c) in s.memory && s.memory[Key(c)] == Answer(RequestOf(c), Stale)
    case NotFound(_) => Key(c) in s.memory && s.memory[Key(c)] == Answer(RequestOf(c), Gone)
    case Invalid(_) => Key(c) in s.memory && s.memory[Key(c)] == Answer(RequestOf(c), Rejected)
    case Unreached(_) => true
    case Unexpected(_) => true
  }

  ghost predicate CanEdit(w: World, e: nat, edits: map<Id, LocalEdit>) {
    && e in w.engines && edits.Keys <= w.engines[e].seen.Keys
    && forall id | id in edits :: edits[id].Applies(w.engines[e].seen[id])
  }

  /** The drain loop's choice: the dispatching engine is idle and the command runnable in what it holds. */
  ghost predicate CanPick(w: World, e: nat, op: Id, now: Time) {
    && e in w.engines && w.engines[e].inflight.None?
    && Ranked(w.rank, w.engines[e].seen) && Runnable(w.rank, w.engines[e].seen, op, now)
  }

  ghost predicate CanAck(w: World, e: nat, readable: bool, chained: Option<Id>, freshKey: Id) {
    && e in w.engines && w.engines[e].inflight.Some?
    && var c := w.engines[e].inflight.value;
       && Key(c) in w.server.memory && w.server.memory[Key(c)].request == RequestOf(c)
       && w.server.memory[Key(c)].outcome.Applied?
       && freshKey !in w.minted
       && Ranked(w.rank, w.stored)
       && (readable ==> IsFirstActive(w.rank, w.stored - {OpId(c)}, c.entity, chained))
       && (!readable ==> chained == None)
  }

  /** attached: the engine still holds the very copy it dispatched. */
  ghost predicate CanFail(w: World, e: nat, reply: Reply, attached: bool, freshKey: Id) {
    && e in w.engines && w.engines[e].inflight.Some? && freshKey !in w.minted
    && var c := w.engines[e].inflight.value;
       && Answered(w.server, c, reply)
       && (attached ==> OpId(c) in w.engines[e].seen && w.engines[e].seen[OpId(c)] == c && IsActive(c))
  }

  /**
   * What other devices can do to one item: write it, which counts its revision up, delete it for good, or
   * create it anew under the same id, which starts over at revision 1.
   */
  predicate Counts(versions: map<EntityId, Version>, entity: EntityId, version: Option<Version>) {
    if entity !in versions then version == Some(1)
    else version.Some? ==> version.value > versions[entity]
  }

  ghost predicate Enabled(w: World, a: Action) {
    match a
    case Enqueue(e, c) => e in w.engines && IsNormal(c) && OpId(c) !in w.rank && Key(c) !in w.minted
    case Edit(e, edits) => CanEdit(w, e, edits)
    case Cancel(e, op, claimId) =>
      e in w.engines && op in w.engines[e].seen && HeldBy(w.engines[e].seen[op], claimId)
    case Clear(e) => e in w.engines
    case ClearEverything(e) => e in w.engines
    case Restart(e) => true
    case Send(e, op, now) => CanPick(w, e, op, now) && Dispatchable(w.engines[e].seen[op])
    case Serve(r, _) => r in w.net
    case OtherDevice(entity, version) => Counts(w.server.versions, entity, version)
    case Ack(e, readable, chained, freshKey, _) => CanAck(w, e, readable, chained, freshKey)
    case Fail(e, reply, _, attached, _, freshKey, _) => CanFail(w, e, reply, attached, freshKey)
    case Misfire(e, op, now, _, freshKey) => CanPick(w, e, op, now) && freshKey !in w.minted
  }

  /** The command behind an acknowledged one, after the acknowledgement. */
  ghost function ChainedCopy(w: World, a: Action): Command
    requires a.Ack? && Enabled(w, a) && a.chained.Some?
  {
    var answer := w.server.memory[Key(w.engines[a.e].inflight.value)];
    RebaseChained(w.stored[a.chained.value], answer.outcome.version, a.freshKey, a.freshCopy)
  }

  /** The dispatched command after a failure. */
  ghost function FailedCopy(w: World, a: Action): Command
    requires a.Fail? && Enabled(w, a)
  {
    AfterFailure(w.engines[a.e].inflight.value, a.reply, a.current, a.now, a.freshKey, a.freshCopy)
  }

  /** The actions that end with a persist pass over commands already issued. */
  predicate Persists(a: Action) {
    !a.Enqueue? && !a.Send? && !a.Serve? && !a.OtherDevice?
  }

  /** The operations a persist pass removes. */
  ghost function RemovedBy(w: World, a: Action): set<Id>
    requires Persists(a) && Enabled(w, a)
  {
    if a.Cancel? then {a.op}
    else if a.Clear? then w.engines[a.e].seen.Keys
    else if a.ClearEverything? then w.stored.Keys
    else if a.Ack? then {OpId(w.engines[a.e].inflight.value)}
    else {}
  }

  /** The copy a persist pass may put under a fresh key. */
  ghost function RewrittenBy(w: World, a: Action): Option<Command>
    requires Persists(a) && Enabled(w, a)
  {
    if a.Ack? && a.chained.Some? then Some(ChainedCopy(w, a))
    else if a.Fail? && a.attached then Some(FailedCopy(w, a))
    else if a.Misfire? then Some(MarkRetrying(w.engines[a.e].seen[a.op], a.now, a.error, a.freshKey))
    else None
  }

  /** What a persist pass leaves in the store. */
  ghost function StoredBy(w: World, a: Action): map<Id, Command>
    requires Persists(a) && Enabled(w, a)
  {
    if a.Edit? then
      QueueSteps.Swap(w.stored, w.engines[a.e].seen, LocalChanges(w.engines[a.e].seen, a.edits))
    else if a.Ack? && a.chained.Some? then
      (w.stored - RemovedBy(w, a))[a.chained.value := ChainedCopy(w, a)]
    else if a.Fail? && a.attached then
      QueueSteps.Swap(w.stored, w.engines[a.e].seen, map[OpId(FailedCopy(w, a)) := FailedCopy(w, a)])
    else if a.Misfire? then
      QueueSteps.Swap(w.stored, w.engines[a.e].seen, map[a.op := RewrittenBy(w, a).value])
    else
      w.stored - RemovedBy(w, a)
  }

  ghost function InflightAfter(w: World, a: Action): Option<Command>
    requires Persists(a) && Enabled(w, a)
  {
    if a.Edit? || a.Cancel? || a.Clear? || a.ClearEverything? then w.engines[a.e].inflight else None
  }

  ghost function AfterEnqueue(w: World, a: Action): World
    requires a.Enqueue? && Enabled(w, a)
  {
    var id := OpId(a.c);
    Commit(w.(rank := w.rank[id := w.next], arrival := w.arrival[w.next := id], next := w.next + 1,
              born := w.born[id := a.c]),
           a.e, w.stored[id := a.c], w.engines[a.e].inflight, Some(a.c), {}, {})
  }

  ghost function AfterSend(w: World, a: Action): World
    requires a.Send? && Enabled(w, a)
  {
    var c := w.engines[a.e].seen[a.op];
    w.(net := w.net + {RequestOf(c)}, engines := w.engines[a.e := w.engines[a.e].(inflight := Some(c))])
  }

  ghost function AfterPersist(w: World, a: Action): World
    requires Persists(a) && Enabled(w, a)
  {
    Commit(w, a.e, StoredBy(w, a), InflightAfter(w, a), RewrittenBy(w, a), RemovedBy(w, a),
           if a.Ack? then RemovedBy(w, a) else {})
  }

  ghost function AfterOtherDevice(w: World, a: Action): World
    requires a.OtherDevice?
  {
    w.(server := w.server.(versions :=
         if a.version.Some? then w.server.versions[a.entity := a.version.value]
         else w.server.versions - {a.entity}))
  }

  ghost function Next(w: World, a: Action): World
    requires Enabled(w, a)
  {
    if a.Enqueue? then AfterEnqueue(w, a)
    else if a.Send? then AfterSend(w, a)
    else if a.Serve? then w.(server := Handle(w.server, a.r, a.valid))
    else if a.OtherDevice? then AfterOtherDevice(w, a)
    else AfterPersist(w, a)
  }

  ghost predicate Initial(w: World) {
    && w.stored == map[] && w.engines == map[] && w.net == {} && w.server.memory == map[]
    && w.minted == map[] && w.current == map[] && w.rank == map[] && w.arrival == map[] && w.born == map[]
    && w.gone == {} && w.acked == {} && w.next == 0
  }

  /** A run: every action is enabled where it is taken. */
  ghost predicate Runs(w: World, actions: seq<Action>)
    decreases |actions|
  {
    actions != [] ==> Enabled(w, actions[0]) && Runs(Next(w, actions[0]), actions[1..])
  }

  ghost function After(w: World, actions: seq<Action>): World
    requires Runs(w, actions)
    decreases |actions|
  {
    if actions == [] then w else After(Next(w, actions[0]), actions[1..])
  }
}
