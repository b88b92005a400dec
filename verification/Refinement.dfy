/**
 * The shared world keeps queues as maps with an arrival rank; the source keeps arrays in
 * timestamp order. This module connects them: every persist pass on arrays is the corresponding action.
 */
module Refinement {
  import opened Options
  import opened Commands
  import opened QueueMerge
  import opened MergeLaws
  import opened QueueSteps
  import opened Protocol
  import opened ProtocolSafety

  ghost predicate Ahead(rank: map<Id, nat>, c: Command, d: Command) {
    OpId(c) in rank && OpId(d) in rank && Before(rank, c, d)
  }

  ghost predicate AheadOfAll(rank: map<Id, nat>, c: Command, q: seq<Command>) {
    OpId(c) in rank && (q != [] ==> Ahead(rank, c, q[0]) && AheadOfAll(rank, c, q[1..]))
  }

  /** In queue order: by time, then by arrival. */
  ghost predicate Ordered(rank: map<Id, nat>, q: seq<Command>) {
    q != [] ==> AheadOfAll(rank, q[0], q[1..]) && Ordered(rank, q[1..])
  }

  /** The array q stands for the map m. */
  ghost predicate Lists(rank: map<Id, nat>, q: seq<Command>, m: map<Id, Command>) {
    Unique(q) && Ordered(rank, q) && MapOf(q) == m
  }

  // ---------------------------------------------------------------------------
  // Order
  // ---------------------------------------------------------------------------

  lemma {:induction false} OrderedIsSorted(rank: map<Id, nat>, q: seq<Command>)
    requires Ordered(rank, q)
    ensures Sorted(q)
  {
    if q != [] {
      OrderedIsSorted(rank, q[1..]);
    }
  }

  lemma {:induction false} AheadOfMember(rank: map<Id, nat>, c: Command, q: seq<Command>, id: Id)
    requires AheadOfAll(rank, c, q) && id in Ids(q)
    ensures id in rank && Ahead(rank, c, MapOf(q)[id])
  {
    if OpId(q[0]) != id {
      AheadOfMember(rank, c, q[1..], id);
    }
  }

  lemma {:induction false} ListsRanked(rank: map<Id, nat>, q: seq<Command>)
    requires Ordered(rank, q)
    ensures Ranked(rank, MapOf(q))
  {
    if q != [] {
      ListsRanked(rank, q[1..]);
    }
  }

  lemma {:induction false} AheadOfAllTransitive(rank: map<Id, nat>, c: Command, d: Command, q: seq<Command>)
    requires Ahead(rank, c, d) && AheadOfAll(rank, d, q)
    ensures AheadOfAll(rank, c, q)
  {
    if q != [] {
      AheadOfAllTransitive(rank, c, d, q[1..]);
    }
  }

  /** Order depends on identity and time only, and removing commands keeps it. */
  lemma {:induction false} AheadOfAllThinned(rank: map<Id, nat>, c: Command, q: seq<Command>, ids: set<Id>)
    requires AheadOfAll(rank, c, q)
    ensures AheadOfAll(rank, c, Without(q, ids))
  {
    if q != [] {
      AheadOfAllThinned(rank, c, q[1..], ids);
    }
  }

  lemma {:induction false} WithoutOrdered(rank: map<Id, nat>, q: seq<Command>, ids: set<Id>)
    requires Ordered(rank, q)
    ensures Ordered(rank, Without(q, ids))
  {
    if q != [] {
      WithoutOrdered(rank, q[1..], ids);
      AheadOfAllThinned(rank, q[0], q[1..], ids);
    }
  }

  /** Position by position the same operation and the same time. */
  ghost predicate SamePlaces(p: seq<Command>, q: seq<Command>) {
    && (p == [] <==> q == [])
    && (p != [] ==> OpId(p[0]) == OpId(q[0]) && p[0].timestamp == q[0].timestamp && SamePlaces(p[1..], q[1..]))
  }

  lemma {:induction false} SamePlacesAhead(rank: map<Id, nat>, c: Command, d: Command, p: seq<Command>, q: seq<Command>)
    requires SamePlaces(p, q) && AheadOfAll(rank, c, p) && OpId(c) == OpId(d) && c.timestamp == d.timestamp
    ensures AheadOfAll(rank, d, q)
  {
    if p != [] {
      SamePlacesAhead(rank, c, d, p[1..], q[1..]);
    }
  }

  lemma {:induction false} SamePlacesOrdered(rank: map<Id, nat>, p: seq<Command>, q: seq<Command>)
    requires SamePlaces(p, q) && Ordered(rank, p)
    ensures Ordered(rank, q)
  {
    if p != [] {
      SamePlacesAhead(rank, p[0], q[0], p[1..], q[1..]);
      SamePlacesOrdered(rank, p[1..], q[1..]);
    }
  }

  lemma {:induction false} SamePlacesReflexive(q: seq<Command>)
    ensures SamePlaces(q, q)
  {
    if q != [] {
      SamePlacesReflexive(q[1..]);
    }
  }

  lemma {:induction false} SwapKeepsPlaces(q: seq<Command>, seen: map<Id, Command>, changes: map<Id, Command>)
    requires Edits(seen, changes)
    ensures SamePlaces(q, SwapAll(q, seen, changes))
  {
    if q != [] {
      SwapKeepsPlaces(q[1..], seen, changes);
    }
  }

  lemma {:induction false} ChainKeepsPlaces(
    q: seq<Command>, entity: EntityId, version: Version, freshKey: Id, freshCopy: Id)
    ensures SamePlaces(q, Chain(q, entity, version, freshKey, freshCopy))
  {
    if q != [] {
      if q[0].entity == entity && IsActive(q[0]) {
        SamePlacesReflexive(q[1..]);
      } else {
        ChainKeepsPlaces(q[1..], entity, version, freshKey, freshCopy);
      }
    }
  }

  lemma {:induction false} AheadOfAllLater(
    rank: map<Id, nat>, c: Command, q: seq<Command>, id: Id, next: nat)
    requires AheadOfAll(rank, c, q) && id !in rank
    ensures AheadOfAll(rank[id := next], c, q)
  {
    if q != [] {
      AheadOfAllLater(rank, c, q[1..], id, next);
    }
  }

  lemma {:induction false} AheadOfInserted(rank: map<Id, nat>, c: Command, q: seq<Command>, d: Command)
    requires AheadOfAll(rank, c, q) && Ahead(rank, c, d)
    ensures AheadOfAll(rank, c, InsertByTime(q, d))
  {
    if q != [] && q[0].timestamp <= d.timestamp {
      AheadOfInserted(rank, c, q[1..], d);
    }
  }

  lemma {:induction false} OrderedLater(rank: map<Id, nat>, q: seq<Command>, id: Id, next: nat)
    requires Ordered(rank, q) && id !in rank
    ensures Ordered(rank[id := next], q)
  {
    if q != [] {
      AheadOfAllLater(rank, q[0], q[1..], id, next);
      OrderedLater(rank, q[1..], id, next);
    }
  }

  /** A later arrival goes behind everything that is not later in time. */
  lemma {:induction false} InsertOrdered(rank: map<Id, nat>, q: seq<Command>, c: Command, next: nat)
    requires Ordered(rank, q) && OpId(c) !in rank
    requires forall id | id in rank :: rank[id] < next
    ensures Ordered(rank[OpId(c) := next], InsertByTime(q, c))
  {
    var after := rank[OpId(c) := next];
    if q != [] {
      OrderedLater(rank, q, OpId(c), next);
      if c.timestamp < q[0].timestamp {
        AheadOfAllTransitive(after, c, q[0], q[1..]);
      } else {
        AheadOfInserted(after, q[0], q[1..], c);
        InsertOrdered(rank, q[1..], c, next);
      }
    }
  }

  // ---------------------------------------------------------------------------
  // Choosing a command
  // ---------------------------------------------------------------------------

  predicate AnyActive(q: seq<Command>, entity: EntityId) {
    FirstActive(q, entity).Some?
  }

  /** The first command that is ready, not yet attempted, and behind no active one of its entity. */
  function FirstRunnable(before: seq<Command>, q: seq<Command>, attempted: set<Id>, now: Time): Option<Command>
    decreases |q|
  {
    if q == [] then None
    else if IsReady(q[0], now) && OpId(q[0]) !in attempted && !AnyActive(before, q[0].entity) then Some(q[0])
    else FirstRunnable(before + [q[0]], q[1..], attempted, now)
  }

  lemma {:induction false} NoneActiveMember(q: seq<Command>, entity: EntityId, id: Id)
    requires !AnyActive(q, entity) && id in Ids(q) && MapOf(q)[id].entity == entity
    ensures !IsActive(MapOf(q)[id])
  {
    if OpId(q[0]) != id {
      NoneActiveMember(q[1..], entity, id);
    }
  }

  lemma {:induction false} NotBehind(rank: map<Id, nat>, p: seq<Command>, q: seq<Command>, id: Id)
    requires Ordered(rank, p + q) && q != [] && id in Ids(p + q) && id != OpId(q[0])
    requires Ahead(rank, MapOf(p + q)[id], q[0])
    ensures id in Ids(p) && MapOf(p)[id] == MapOf(p + q)[id]
  {
    if p == [] {
      assert p + q == q;
      AheadOfMember(rank, q[0], q[1..], id);
    } else {
      assert (p + q)[1..] == p[1..] + q;
      if OpId(p[0]) != id {
        NotBehind(rank, p[1..], q, id);
      }
    }
  }

  /** What the drain loop picks is runnable in the shared world. */
  lemma {:induction false} PickedIsRunnable(
    rank: map<Id, nat>, before: seq<Command>, q: seq<Command>, attempted: set<Id>, now: Time)
    requires Unique(before + q) && Ordered(rank, before + q)
    requires FirstRunnable(before, q, attempted, now).Some?
    ensures var c := FirstRunnable(before, q, attempted, now).value;
            && OpId(c) !in attempted
            && Ranked(rank, MapOf(before + q)) && Runnable(rank, MapOf(before + q), OpId(c), now)
            && MapOf(before + q)[OpId(c)] == c
    decreases |q|
  {
    if IsReady(q[0], now) && OpId(q[0]) !in attempted && !AnyActive(before, q[0].entity) {
      var m := MapOf(before + q);
      ListsRanked(rank, before + q);
      MemberInMap(before + q, q[0]);
      forall id | id in m && id != OpId(q[0]) && m[id].entity == q[0].entity && Before(rank, m[id], q[0])
        ensures !IsActive(m[id])
      {
        NotBehind(rank, before, q, id);
        NoneActiveMember(before, q[0].entity, id);
      }
    } else {
      assert before + q == (before + [q[0]]) + q[1..];
      PickedIsRunnable(rank, before + [q[0]], q[1..], attempted, now);
    }
  }

  /** The command an acknowledgement chains is the first active one in the shared world, and only that. */
  lemma {:induction false} FirstActiveIsFirst(rank: map<Id, nat>, q: seq<Command>, entity: EntityId)
    requires Unique(q) && Ordered(rank, q)
    ensures Ranked(rank, MapOf(q))
    ensures var f := FirstActive(q, entity);
            IsFirstActive(rank, MapOf(q), entity, if f.Some? then Some(OpId(f.value)) else None)
  {
    ListsRanked(rank, q);
    if q != [] {
      FirstActiveIsFirst(rank, q[1..], entity);
      FirstActiveIs(q[1..], entity);
      if q[0].entity == entity && IsActive(q[0]) {
        forall id | id in Ids(q[1..]) ensures Before(rank, q[0], MapOf(q)[id]) {
          AheadOfMember(rank, q[0], q[1..], id);
        }
      } else {
        FirstActiveIs(q, entity);
      }
    }
  }

  // ---------------------------------------------------------------------------
  // Every persist pass is an action
  // ---------------------------------------------------------------------------

  lemma SwapRefines(
    rank: map<Id, nat>, snapshot: seq<Command>, stored: seq<Command>,
    seen: map<Id, Command>, m: map<Id, Command>, changes: map<Id, Command>)
    requires Lists(rank, snapshot, seen) && Lists(rank, stored, m) && Edits(seen, changes)
    ensures Lists(rank, Merge(seen, Edited(snapshot, changes), stored), Swap(m, seen, changes))
  {
    OrderedIsSorted(rank, stored);
    EditIsSwap(snapshot, changes, stored);
    SwapAllIs(stored, seen, changes);
    SwapKeepsPlaces(stored, seen, changes);
    SamePlacesOrdered(rank, stored, SwapAll(stored, seen, changes));
  }

  lemma RemovalRefines(
    rank: map<Id, nat>, snapshot: seq<Command>, stored: seq<Command>,
    seen: map<Id, Command>, m: map<Id, Command>, dropped: set<Id>)
    requires Lists(rank, snapshot, seen) && Lists(rank, stored, m) && dropped <= seen.Keys
    ensures Lists(rank, Merge(seen, Without(snapshot, dropped), stored), m - dropped)
  {
    OrderedIsSorted(rank, stored);
    RemovalIsWithout(snapshot, dropped, stored);
    WithoutIs(stored, dropped);
    WithoutOrdered(rank, stored, dropped);
  }

  lemma EnqueueRefines(
    rank: map<Id, nat>, snapshot: seq<Command>, stored: seq<Command>,
    seen: map<Id, Command>, m: map<Id, Command>, c: Command, next: nat)
    requires Lists(rank, snapshot, seen) && Lists(rank, stored, m) && OpId(c) !in rank
    requires forall id | id in rank :: rank[id] < next
    ensures Lists(rank[OpId(c) := next], Merge(seen, SortByTime(snapshot + [c]), stored), m[OpId(c) := c])
  {
    OrderedIsSorted(rank, snapshot);
    OrderedIsSorted(rank, stored);
    ListsRanked(rank, snapshot);
    ListsRanked(rank, stored);
    EnqueueIsInsert(snapshot, c, stored);
    InsertContents(stored, c);
    InsertOrdered(rank, stored, c, next);
  }

  lemma FirstActiveUnique(
    rank: map<Id, nat>, q: map<Id, Command>, entity: EntityId, f: Option<Id>, g: Option<Id>)
    requires Ranked(rank, q) && IsFirstActive(rank, q, entity, f) && IsFirstActive(rank, q, entity, g)
    ensures f == g
  {
  }

  lemma AcknowledgeRefines(
    rank: map<Id, nat>, stored: seq<Command>, m: map<Id, Command>, op: Id, entity: EntityId,
    version: Version, chained: Option<Id>, freshKey: Id, freshCopy: Id)
    requires Lists(rank, stored, m) && Ranked(rank, m - {op}) && IsFirstActive(rank, m - {op}, entity, chained)
    ensures Lists(rank, Acknowledge(stored, op, entity, Some(version), freshKey, freshCopy),
                  if chained.None? then m - {op}
                  else (m - {op})[chained.value := RebaseChained(m[chained.value], version, freshKey, freshCopy)])
  {
    var rest := Without(stored, {op});
    WithoutIs(stored, {op});
    WithoutOrdered(rank, stored, {op});
    FirstActiveIsFirst(rank, rest, entity);
    FirstActiveIs(rest, entity);
    var f := FirstActive(rest, entity);
    FirstActiveUnique(rank, m - {op}, entity, chained, if f.Some? then Some(OpId(f.value)) else None);
    ChainIs(rest, entity, version, freshKey, freshCopy);
    ChainKeepsPlaces(rest, entity, version, freshKey, freshCopy);
    SamePlacesOrdered(rank, rest, Chain(rest, entity, version, freshKey, freshCopy));
  }

  /** The stored array after the persist pass of an action, computed as the source computes it. */
  ghost function ArrayAfter(w: World, a: Action, snapshot: seq<Command>, stored: seq<Command>): seq<Command>
    requires Enabled(w, a) && (a.Enqueue? || Persists(a))
  {
    match a
    case Enqueue(_, c) => Merge(MapOf(snapshot), SortByTime(snapshot + [c]), stored)
    case Edit(e, edits) =>
      Merge(MapOf(snapshot), Edited(snapshot, LocalChanges(w.engines[e].seen, edits)), stored)
    case Cancel(_, op, _) => Merge(MapOf(snapshot), Without(snapshot, {op}), stored)
    case Clear(_) => Merge(MapOf(snapshot), Without(snapshot, Ids(snapshot)), stored)
    case ClearEverything(_) => []
    case Ack(e, readable, _, freshKey, freshCopy) =>
      var c := w.engines[e].inflight.value;
      Acknowledge(stored, OpId(c), c.entity,
                  if readable then Some(w.server.memory[Key(c)].outcome.version) else None, freshKey, freshCopy)
    case Fail(_, _, _, attached, _, _, _) =>
      if attached then
        var d := FailedCopy(w, a);
        Merge(MapOf(snapshot), Edited(snapshot, map[OpId(d) := d]), stored)
      else
        Merge(MapOf(snapshot), snapshot, stored)
    case Misfire(_, op, _, _, _) =>
      Merge(MapOf(snapshot), Edited(snapshot, map[op := RewrittenBy(w, a).value]), stored)
    case Restart(_) => stored
  }

  lemma EditRefines(w: World, a: Action, snapshot: seq<Command>, stored: seq<Command>)
    requires Enabled(w, a) && a.Edit?
    requires Lists(w.rank, snapshot, w.engines[a.e].seen) && Lists(w.rank, stored, w.stored)
    ensures Lists(w.rank, ArrayAfter(w, a, snapshot, stored), StoredBy(w, a))
  {
    var seen := w.engines[a.e].seen;
    var changes := LocalChanges(seen, a.edits);
    ListsRanked(w.rank, snapshot);
    forall id | id in changes ensures OpId(changes[id]) == id && changes[id].timestamp == seen[id].timestamp {
      LocalEditFollows(seen[id], a.edits[id]);
    }
    SwapRefines(w.rank, snapshot, stored, seen, w.stored, changes);
  }

  lemma MisfireRefines(w: World, a: Action, snapshot: seq<Command>, stored: seq<Command>)
    requires Enabled(w, a) && a.Misfire?
    requires Lists(w.rank, snapshot, w.engines[a.e].seen) && Lists(w.rank, stored, w.stored)
    ensures Lists(w.rank, ArrayAfter(w, a, snapshot, stored), StoredBy(w, a))
  {
    var seen := w.engines[a.e].seen;
    ListsRanked(w.rank, snapshot);
    FailureUsesEffort(seen[a.op], Unreached(a.error), Unavailable(a.error), a.now, a.freshKey, a.freshKey);
    SwapRefines(w.rank, snapshot, stored, seen, w.stored, map[a.op := RewrittenBy(w, a).value]);
  }

  lemma FailureRefines(w: World, a: Action, snapshot: seq<Command>, stored: seq<Command>)
    requires Enabled(w, a) && a.Fail?
    requires Lists(w.rank, snapshot, w.engines[a.e].seen) && Lists(w.rank, stored, w.stored)
    ensures Lists(w.rank, ArrayAfter(w, a, snapshot, stored), StoredBy(w, a))
  {
    var seen := w.engines[a.e].seen;
    ListsRanked(w.rank, snapshot);
    if a.attached {
      FailureUsesEffort(w.engines[a.e].inflight.value, a.reply, a.current, a.now, a.freshKey, a.freshCopy);
      var d := FailedCopy(w, a);
      SwapRefines(w.rank, snapshot, stored, seen, w.stored, map[OpId(d) := d]);
    } else {
      WithoutIs(snapshot, {});
      RemovalRefines(w.rank, snapshot, stored, seen, w.stored, {});
      assert w.stored - {} == w.stored;
    }
  }

  lemma AckRefines(w: World, a: Action, snapshot: seq<Command>, stored: seq<Command>)
    requires Enabled(w, a) && a.Ack? && Lists(w.rank, stored, w.stored)
    ensures Lists(w.rank, ArrayAfter(w, a, snapshot, stored), StoredBy(w, a))
  {
    var c := w.engines[a.e].inflight.value;
    if a.readable {
      AcknowledgeRefines(w.rank, stored, w.stored, OpId(c), c.entity,
                         w.server.memory[Key(c)].outcome.version, a.chained, a.freshKey, a.freshCopy);
    } else {
      WithoutIs(stored, {OpId(c)});
      WithoutOrdered(w.rank, stored, {OpId(c)});
    }
  }

  lemma DropRefines(w: World, a: Action, snapshot: seq<Command>, stored: seq<Command>)
    requires Enabled(w, a) && (a.Cancel? || a.Clear? || a.ClearEverything? || a.Restart?)
    requires a.e in w.engines ==> Lists(w.rank, snapshot, w.engines[a.e].seen)
    requires Lists(w.rank, stored, w.stored)
    ensures Lists(w.rank, ArrayAfter(w, a, snapshot, stored), StoredBy(w, a))
  {
    if a.Cancel? || a.Clear? {
      RemovalRefines(w.rank, snapshot, stored, w.engines[a.e].seen, w.stored, RemovedBy(w, a));
    } else if a.ClearEverything? {
      assert w.stored - w.stored.Keys == map[];
    } else {
      assert w.stored - {} == w.stored;
    }
  }

  /** The persist pass on arrays leaves exactly what the action of the shared world says. */
  lemma PersistRefines(w: World, a: Action, snapshot: seq<Command>, stored: seq<Command>)
    requires Books(w) && Enabled(w, a) && (a.Enqueue? || Persists(a))
    requires a.e in w.engines ==> Lists(w.rank, snapshot, w.engines[a.e].seen)
    requires Lists(w.rank, stored, w.stored)
    ensures Lists(Next(w, a).rank, ArrayAfter(w, a, snapshot, stored), Next(w, a).stored)
  {
    if a.Enqueue? {
      EnqueueRefines(w.rank, snapshot, stored, w.engines[a.e].seen, w.stored, a.c, w.next);
    } else if a.Edit? {
      EditRefines(w, a, snapshot, stored);
    } else if a.Ack? {
      AckRefines(w, a, snapshot, stored);
    } else if a.Fail? {
      FailureRefines(w, a, snapshot, stored);
    } else if a.Misfire? {
      MisfireRefines(w, a, snapshot, stored);
    } else {
      DropRefines(w, a, snapshot, stored);
    }
  }

  // ---------------------------------------------------------------------------
  // Whole runs
  // ---------------------------------------------------------------------------

  /** The stored array and the array each engine holds. */
  datatype Arrays = Arrays(stored: seq<Command>, held: map<nat, seq<Command>>)

  ghost predicate Represents(w: World, x: Arrays) {
    && Lists(w.rank, x.stored, w.stored) && x.held.Keys == w.engines.Keys
    && forall e | e in w.engines :: Lists(w.rank, x.held[e], w.engines[e].seen)
  }

  ghost function NextArrays(w: World, a: Action, x: Arrays): Arrays
    requires Enabled(w, a)
  {
    if a.Enqueue? || Persists(a) then
      var q := ArrayAfter(w, a, if a.e in x.held then x.held[a.e] else [], x.stored);
      Arrays(q, x.held[a.e := q])
    else x
  }

  ghost function ArraysAfter(w: World, actions: seq<Action>, x: Arrays): Arrays
    requires Runs(w, actions)
    decreases |actions|
  {
    if actions == [] then x else ArraysAfter(Next(w, actions[0]), actions[1..], NextArrays(w, actions[0], x))
  }

  lemma OthersStillListed(w: World, a: Action, q: seq<Command>, seen: map<Id, Command>)
    requires Enabled(w, a) && Lists(w.rank, q, seen)
    ensures Lists(Next(w, a).rank, q, seen)
  {
    if a.Enqueue? {
      OrderedLater(w.rank, q, OpId(a.c), w.next);
    }
  }

  lemma CommitRepresents(w: World, v: World, x: Arrays, e: nat, q: seq<Command>)
    requires Represents(w, x) && Lists(v.rank, q, v.stored)
    requires v.engines.Keys == w.engines.Keys + {e} && v.engines[e].seen == v.stored
    requires forall f | f in w.engines && f != e :: v.engines[f] == w.engines[f]
    requires forall f | f in w.engines :: Lists(v.rank, x.held[f], w.engines[f].seen)
    ensures Represents(v, Arrays(q, x.held[e := q]))
  {
  }

  lemma CommitStep(w: World, a: Action)
    requires Enabled(w, a) && (a.Enqueue? || Persists(a))
    ensures var v := Next(w, a);
            && v.engines.Keys == w.engines.Keys + {a.e} && v.engines[a.e].seen == v.stored
            && forall f | f in w.engines && f != a.e :: v.engines[f] == w.engines[f]
  {
  }

  lemma IdleRepresents(w: World, v: World, x: Arrays)
    requires Represents(w, x) && v.rank == w.rank && v.stored == w.stored && v.engines.Keys == w.engines.Keys
    requires forall f | f in w.engines :: v.engines[f].seen == w.engines[f].seen
    ensures Represents(v, x)
  {
  }

  lemma IdleStep(w: World, a: Action)
    requires Enabled(w, a) && !a.Enqueue? && !Persists(a)
    ensures var v := Next(w, a);
            && v.rank == w.rank && v.stored == w.stored && v.engines.Keys == w.engines.Keys
            && forall f | f in w.engines :: v.engines[f].seen == w.engines[f].seen
  {
  }

  lemma StepRefines(w: World, a: Action, x: Arrays)
    requires Books(w) && Enabled(w, a) && Represents(w, x)
    ensures Represents(Next(w, a), NextArrays(w, a, x))
  {
    if a.Enqueue? || Persists(a) {
      var snapshot := if a.e in x.held then x.held[a.e] else [];
      PersistRefines(w, a, snapshot, x.stored);
      CommitStep(w, a);
      forall f | f in w.engines ensures Lists(Next(w, a).rank, x.held[f], w.engines[f].seen) {
        OthersStillListed(w, a, x.held[f], w.engines[f].seen);
      }
      CommitRepresents(w, Next(w, a), x, a.e, ArrayAfter(w, a, snapshot, x.stored));
    } else {
      IdleStep(w, a);
      IdleRepresents(w, Next(w, a), x);
    }
  }

  /** In every run of the shared world, the arrays the source keeps stand for its maps. */
  lemma {:induction false} RunRefines(w: World, actions: seq<Action>, x: Arrays)
    requires Inv(w) && Runs(w, actions) && Represents(w, x)
    ensures Represents(After(w, actions), ArraysAfter(w, actions, x))
    decreases |actions|
  {
    if actions != [] {
      StepKeepsInv(w, actions[0]);
      StepRefines(w, actions[0], x);
      RunRefines(Next(w, actions[0]), actions[1..], NextArrays(w, actions[0], x));
    }
  }
}
