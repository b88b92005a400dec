/**
 * Between two atomic steps an engine's memory is the stored queue it last adopted. From such
 * a snapshot every local change plus its persist pass is one simple edit of the stored
 * queue: a compare-and-swap per command, an insertion, or a removal.
 */
module QueueSteps {
  import opened Options
  import opened Commands
  import opened QueueMerge
  import opened MergeLaws

  /** The in-memory queue after some of its commands were edited in place. */
  function Edited(q: seq<Command>, changes: map<Id, Command>): seq<Command> {
    if q == [] then []
    else [if OpId(q[0]) in changes then changes[OpId(q[0])] else q[0]] + Edited(q[1..], changes)
  }

  /** The stored queue after a compare-and-swap of each changed command against the snapshot. */
  function SwapAll(stored: seq<Command>, seen: map<Id, Command>, changes: map<Id, Command>): seq<Command> {
    if stored == [] then []
    else
      var c := stored[0];
      [if OpId(c) in changes && Get(seen, OpId(c)) == Some(c) then changes[OpId(c)] else c]
        + SwapAll(stored[1..], seen, changes)
  }

  /** The contents of SwapAll. */
  function Swap(stored: map<Id, Command>, seen: map<Id, Command>, changes: map<Id, Command>): map<Id, Command> {
    map id | id in stored ::
      if id in changes && Get(seen, id) == Some(stored[id]) then changes[id] else stored[id]
  }

  /** Edits keep the identity and the timestamp of the command they replace. */
  ghost predicate Edits(seen: map<Id, Command>, changes: map<Id, Command>) {
    forall id | id in changes ::
      id in seen && OpId(changes[id]) == id && changes[id].timestamp == seen[id].timestamp
  }

  lemma {:induction false} EditedIs(q: seq<Command>, changes: map<Id, Command>)
    requires Unique(q) && WellKeyed(changes) && changes.Keys <= Ids(q)
    ensures MapOf(Edited(q, changes)) == MapOf(q) + changes
    ensures Unique(Edited(q, changes))
  {
    if q != [] {
      var here := changes.Keys * {OpId(q[0])};
      EditedIs(q[1..], changes - here);
      EditedRest(q[1..], changes, OpId(q[0]));
    }
  }

  lemma {:induction false} EditedRest(q: seq<Command>, changes: map<Id, Command>, id: Id)
    requires id !in Ids(q)
    ensures Edited(q, changes - (changes.Keys * {id})) == Edited(q, changes)
  {
    if q != [] {
      EditedRest(q[1..], changes, id);
    }
  }

  lemma {:induction false} SwapAllIs(stored: seq<Command>, seen: map<Id, Command>, changes: map<Id, Command>)
    requires Unique(stored) && Edits(seen, changes)
    ensures MapOf(SwapAll(stored, seen, changes)) == Swap(MapOf(stored), seen, changes)
    ensures Unique(SwapAll(stored, seen, changes))
    ensures Sorted(stored) ==> Sorted(SwapAll(stored, seen, changes))
  {
    if stored != [] {
      SwapAllIs(stored[1..], seen, changes);
    }
  }

  lemma {:induction false} OverlayIsSwap(
    seen: map<Id, Command>, desired: map<Id, Command>, stored: seq<Command>, changes: map<Id, Command>)
    requires desired == seen + changes && Edits(seen, changes)
    ensures Overlay(seen, desired, stored) == SwapAll(stored, seen, changes)
  {
    if stored != [] {
      OverlayIsSwap(seen, desired, stored[1..], changes);
    }
  }

  /** Editing commands and persisting is a compare-and-swap per edited command, and nothing else. */
  lemma EditIsSwap(snapshot: seq<Command>, changes: map<Id, Command>, stored: seq<Command>)
    requires Unique(snapshot) && Unique(stored) && Sorted(stored)
    requires Edits(MapOf(snapshot), changes)
    ensures Merge(MapOf(snapshot), Edited(snapshot, changes), stored)
         == SwapAll(stored, MapOf(snapshot), changes)
  {
    var seen, queue := MapOf(snapshot), Edited(snapshot, changes);
    EditedIs(snapshot, changes);
    MergeIsOverlay(seen, queue, stored);
    assert seen.Keys - Ids(queue) == {};
    WithoutIs(stored, {});
    NewcomersOfKnown(seen, queue, Ids(stored));
    OverlayIsSwap(seen, MapOf(queue), stored, changes);
    SwapAllIs(stored, seen, changes);
    var body := SwapAll(stored, seen, changes);
    assert body + [] == body;
    SortIs(body);
  }

  lemma {:induction false} InsertNewcomer(known: map<Id, Command>, q: seq<Command>, c: Command, storedIds: set<Id>)
    requires Ids(q) <= known.Keys && OpId(c) !in known && OpId(c) !in storedIds
    ensures Newcomers(known, InsertByTime(q, c), storedIds) == [c]
  {
    if q == [] || c.timestamp < q[0].timestamp {
      NewcomersOfKnown(known, q, storedIds);
    } else {
      InsertNewcomer(known, q[1..], c, storedIds);
    }
  }

  /** Overlaying a snapshot of the stored commands changes none of them. */
  lemma {:induction false} OverlaySnapshot(
    seen: map<Id, Command>, desired: map<Id, Command>, stored: seq<Command>)
    requires forall id | id in desired && id in Ids(stored) :: id in seen && desired[id] == seen[id]
    ensures Overlay(seen, desired, stored) == stored
  {
    if stored != [] {
      OverlaySnapshot(seen, desired, stored[1..]);
    }
  }

  /** Queueing a fresh command and persisting inserts exactly that command. */
  lemma EnqueueIsInsert(snapshot: seq<Command>, c: Command, stored: seq<Command>)
    requires Unique(snapshot) && Unique(stored) && Sorted(snapshot) && Sorted(stored)
    requires OpId(c) !in Ids(snapshot) && OpId(c) !in Ids(stored)
    ensures SortByTime(snapshot + [c]) == InsertByTime(snapshot, c)
    ensures Merge(MapOf(snapshot), InsertByTime(snapshot, c), stored) == InsertByTime(stored, c)
  {
    var seen, queue := MapOf(snapshot), InsertByTime(snapshot, c);
    SortAppended(snapshot, c);
    InsertContents(snapshot, c);
    MergeIsOverlay(seen, queue, stored);
    assert seen.Keys - Ids(queue) == {};
    WithoutIs(stored, {});
    OverlaySnapshot(seen, MapOf(queue), stored);
    InsertNewcomer(seen, snapshot, c, Ids(stored));
    SortAppended(stored, c);
  }

  lemma {:induction false} InsertAllConcat(q: seq<Command>, p: seq<Command>, c: Command)
    ensures InsertAll(q, p + [c]) == InsertByTime(InsertAll(q, p), c)
    decreases |p|
  {
    if p == [] {
      assert p + [c] == [c];
    } else {
      assert (p + [c])[1..] == p[1..] + [c];
      InsertAllConcat(InsertByTime(q, p[0]), p[1..], c);
    }
  }

  lemma SortAppended(q: seq<Command>, c: Command)
    requires Sorted(q)
    ensures SortByTime(q + [c]) == InsertByTime(q, c)
  {
    InsertAllConcat([], q, c);
    SortIs(q);
  }

  /** Dropping commands and persisting removes exactly those, whatever their stored copy. */
  lemma RemovalIsWithout(snapshot: seq<Command>, dropped: set<Id>, stored: seq<Command>)
    requires Unique(snapshot) && Unique(stored) && Sorted(stored)
    requires dropped <= Ids(snapshot)
    ensures Merge(MapOf(snapshot), Without(snapshot, dropped), stored) == Without(stored, dropped)
  {
    var seen, queue := MapOf(snapshot), Without(snapshot, dropped);
    WithoutIs(snapshot, dropped);
    MergeIsOverlay(seen, queue, stored);
    assert seen.Keys - Ids(queue) == dropped;
    WithoutIs(stored, dropped);
    var kept := Without(stored, dropped);
    OverlaySnapshot(seen, MapOf(queue), kept);
    NewcomersOfKnown(seen, queue, Ids(kept));
    WithoutSorted(stored, dropped);
    assert kept + [] == kept;
    SortIs(kept);
  }

  lemma {:induction false} WithoutSorted(q: seq<Command>, ids: set<Id>)
    requires Sorted(q)
    ensures Sorted(Without(q, ids))
    ensures forall t | NotAfter(t, q) :: NotAfter(t, Without(q, ids))
  {
    if q != [] {
      WithoutSorted(q[1..], ids);
    }
  }

  lemma {:induction false} WithoutTwice(q: seq<Command>, a: set<Id>, b: set<Id>)
    ensures Without(Without(q, a), b) == Without(q, a + b)
  {
    if q != [] {
      WithoutTwice(q[1..], a, b);
    }
  }

  // ---------------------------------------------------------------------------
  // Acknowledgement
  // ---------------------------------------------------------------------------

  /** Rewrites the first active command of the entity so that it follows the acknowledged one. */
  function Chain(q: seq<Command>, entity: EntityId, version: Version, freshKey: Id, freshCopy: Id): seq<Command> {
    if q == [] then []
    else if q[0].entity == entity && IsActive(q[0]) then
      [RebaseChained(q[0], version, freshKey, freshCopy)] + q[1..]
    else [q[0]] + Chain(q[1..], entity, version, freshKey, freshCopy)
  }

  /** The stored queue after an acknowledgement. */
  function Acknowledge(
    stored: seq<Command>, op: Id, entity: EntityId, version: Option<Version>, freshKey: Id, freshCopy: Id)
    : seq<Command>
  {
    var rest := Without(stored, {op});
    if version.None? then rest else Chain(rest, entity, version.value, freshKey, freshCopy)
  }

  function FirstActive(q: seq<Command>, entity: EntityId): Option<Command> {
    if q == [] then None
    else if q[0].entity == entity && IsActive(q[0]) then Some(q[0])
    else FirstActive(q[1..], entity)
  }

  lemma {:induction false} FirstActiveIs(q: seq<Command>, entity: EntityId)
    requires Unique(q)
    ensures var f := FirstActive(q, entity);
            f.Some? ==> f.value.entity == entity && IsActive(f.value)
                        && OpId(f.value) in Ids(q) && MapOf(q)[OpId(f.value)] == f.value
  {
    if q != [] {
      FirstActiveIs(q[1..], entity);
    }
  }

  /** Chaining touches one command: the first active one of the entity. */
  lemma {:induction false} ChainIs(q: seq<Command>, entity: EntityId, version: Version, freshKey: Id, freshCopy: Id)
    requires Unique(q)
    ensures var f := FirstActive(q, entity);
            var r := Chain(q, entity, version, freshKey, freshCopy);
            && Unique(r)
            && (f.None? ==> r == q)
            && (f.Some? ==> MapOf(r) == MapOf(q)[OpId(f.value) := RebaseChained(f.value, version, freshKey, freshCopy)])
            && (Sorted(q) ==> Sorted(r))
  {
    if q != [] {
      FirstActiveIs(q, entity);
      if !(q[0].entity == entity && IsActive(q[0])) {
        ChainIs(q[1..], entity, version, freshKey, freshCopy);
        FirstActiveIs(q[1..], entity);
      }
    }
  }
}
