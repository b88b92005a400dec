/**
 * What the three-way merge means: the case table per command, a sorted duplicate-free
 * result, a per-command compare-and-swap, and idempotence.
 */
module MergeLaws {
  import opened Options
  import opened Commands
  import opened QueueMerge

  // ---------------------------------------------------------------------------
  // Insertion-ordered maps
  // ---------------------------------------------------------------------------

  lemma {:induction false} PutIs(q: seq<Command>, c: Command)
    ensures MapOf(Put(q, c)) == MapOf(q)[OpId(c) := c]
    ensures Unique(q) ==> Unique(Put(q, c))
    ensures OpId(c) !in Ids(q) ==> Put(q, c) == q + [c]
  {
    if q != [] && OpId(q[0]) != OpId(c) {
      PutIs(q[1..], c);
    }
  }

  lemma {:induction false} PutAllIs(q: seq<Command>, cs: seq<Command>)
    requires Unique(q)
    ensures Unique(PutAll(q, cs))
    ensures Unique(cs) && Ids(q) !! Ids(cs) ==> PutAll(q, cs) == q + cs
    decreases |cs|
  {
    if cs == [] {
      assert q + cs == q;
    } else {
      PutIs(q, cs[0]);
      PutAllIs(Put(q, cs[0]), cs[1..]);
      assert q + [cs[0]] + cs[1..] == q + cs;
    }
  }

  lemma FromListIs(q: seq<Command>)
    ensures Unique(FromList(q))
    ensures Unique(q) ==> FromList(q) == q
  {
    PutAllIs([], q);
    assert [] + q == q;
  }

  lemma {:induction false} MapOfMember(q: seq<Command>, id: Id)
    ensures id in MapOf(q) ==> MapOf(q)[id] in q && OpId(MapOf(q)[id]) == id
  {
    if q != [] {
      MapOfMember(q[1..], id);
    }
  }

  lemma {:induction false} MemberInMap(q: seq<Command>, c: Command)
    requires Unique(q) && c in q
    ensures OpId(c) in MapOf(q) && MapOf(q)[OpId(c)] == c
  {
    if c != q[0] {
      assert c in q[1..];
      MemberInMap(q[1..], c);
    }
  }

  lemma {:induction false} MapOfConcat(p: seq<Command>, q: seq<Command>)
    ensures MapOf(p + q) == MapOf(q) + MapOf(p)
    ensures Unique(p) && Unique(q) && Ids(p) !! Ids(q) ==> Unique(p + q)
  {
    if p == [] {
      assert p + q == q;
    } else {
      assert (p + q)[1..] == p[1..] + q;
      MapOfConcat(p[1..], q);
    }
  }

  lemma {:induction false} WithoutIs(q: seq<Command>, ids: set<Id>)
    requires Unique(q)
    ensures MapOf(Without(q, ids)) == MapOf(q) - ids
    ensures Unique(Without(q, ids))
    ensures ids !! Ids(q) ==> Without(q, ids) == q
  {
    if q != [] {
      WithoutIs(q[1..], ids);
    }
  }

  // ---------------------------------------------------------------------------
  // Stable sort
  // ---------------------------------------------------------------------------

  lemma {:induction false} InsertSorts(q: seq<Command>, c: Command)
    ensures Sorted(q) ==> Sorted(InsertByTime(q, c))
    ensures multiset(InsertByTime(q, c)) == multiset(q) + multiset{c}
  {
    if q != [] && q[0].timestamp <= c.timestamp {
      InsertSorts(q[1..], c);
      assert q == [q[0]] + q[1..];
    }
  }

  lemma {:induction false} InsertContents(q: seq<Command>, c: Command)
    requires Unique(q) && OpId(c) !in Ids(q)
    ensures Unique(InsertByTime(q, c)) && MapOf(InsertByTime(q, c)) == MapOf(q)[OpId(c) := c]
  {
    if q != [] && q[0].timestamp <= c.timestamp {
      InsertContents(q[1..], c);
    }
  }

  /** A command that is not earlier than anything in a sorted queue goes last. */
  lemma {:induction false} InsertLast(q: seq<Command>, c: Command)
    requires Sorted(q + [c])
    ensures InsertByTime(q, c) == q + [c]
  {
    if q != [] {
      assert (q + [c])[1..] == q[1..] + [c];
      SortedHead(q + [c], |q|);
      InsertLast(q[1..], c);
    }
  }

  lemma {:induction false} SortedHead(q: seq<Command>, i: nat)
    requires Sorted(q) && i < |q|
    ensures q[0].timestamp <= q[i].timestamp
  {
    if i > 0 {
      SortedHead(q[1..], i - 1);
    }
  }

  lemma {:induction false} SortedPrefix(p: seq<Command>, q: seq<Command>)
    requires Sorted(p + q)
    ensures Sorted(p) && Sorted(q)
  {
    if p == [] {
      assert p + q == q;
    } else {
      assert (p + q)[1..] == p[1..] + q;
      SortedPrefix(p[1..], q);
    }
  }

  lemma {:induction false} InsertAllIs(q: seq<Command>, cs: seq<Command>)
    requires Sorted(q)
    ensures Sorted(InsertAll(q, cs))
    ensures multiset(InsertAll(q, cs)) == multiset(q) + multiset(cs)
    ensures Sorted(q + cs) ==> InsertAll(q, cs) == q + cs
    decreases |cs|
  {
    if cs == [] {
      assert q + cs == q;
    } else {
      assert q + [cs[0]] + cs[1..] == q + cs;
      assert cs == [cs[0]] + cs[1..];
      InsertSorts(q, cs[0]);
      InsertAllIs(InsertByTime(q, cs[0]), cs[1..]);
      if Sorted(q + cs) {
        SortedPrefix(q + [cs[0]], cs[1..]);
        InsertLast(q, cs[0]);
      }
    }
  }

  lemma {:induction false} InsertAllContents(q: seq<Command>, cs: seq<Command>)
    requires Unique(q) && Unique(cs) && Ids(q) !! Ids(cs)
    ensures Unique(InsertAll(q, cs)) && MapOf(InsertAll(q, cs)) == MapOf(q) + MapOf(cs)
    decreases |cs|
  {
    if cs != [] {
      InsertContents(q, cs[0]);
      InsertAllContents(InsertByTime(q, cs[0]), cs[1..]);
    }
  }

  /** Sorting yields a sorted permutation and does nothing to a sorted queue. */
  lemma SortIs(cs: seq<Command>)
    ensures Sorted(SortByTime(cs)) && multiset(SortByTime(cs)) == multiset(cs)
    ensures Sorted(cs) ==> SortByTime(cs) == cs
    ensures Unique(cs) ==> Unique(SortByTime(cs)) && MapOf(SortByTime(cs)) == MapOf(cs)
  {
    InsertAllIs([], cs);
    assert [] + cs == cs;
    if Unique(cs) {
      InsertAllContents([], cs);
    }
  }

  /** The commands of one timestamp, in order. */
  function AtTime(q: seq<Command>, t: Time): seq<Command> {
    if q == [] then []
    else if q[0].timestamp == t then [q[0]] + AtTime(q[1..], t)
    else AtTime(q[1..], t)
  }

  lemma {:induction false} AtLaterTime(q: seq<Command>, t: Time)
    requires Sorted(q) && q != [] && t < q[0].timestamp
    ensures AtTime(q, t) == []
  {
    if q[1..] != [] {
      AtLaterTime(q[1..], t);
    }
  }

  lemma {:induction false} InsertIsStable(q: seq<Command>, c: Command, t: Time)
    requires Sorted(q)
    ensures AtTime(InsertByTime(q, c), t) == AtTime(q, t) + (if c.timestamp == t then [c] else [])
  {
    if q == [] {
    } else if c.timestamp < q[0].timestamp {
      if c.timestamp == t {
        AtLaterTime(q, t);
      }
    } else {
      InsertIsStable(q[1..], c, t);
    }
  }

  /** The sort is stable: commands of one timestamp keep their order. */
  lemma {:induction false} InsertAllIsStable(q: seq<Command>, cs: seq<Command>, t: Time)
    requires Sorted(q)
    ensures AtTime(InsertAll(q, cs), t) == AtTime(q, t) + AtTime(cs, t)
    decreases |cs|
  {
    if cs != [] {
      InsertSorts(q, cs[0]);
      InsertIsStable(q, cs[0], t);
      InsertAllIsStable(InsertByTime(q, cs[0]), cs[1..], t);
    }
  }

  // ---------------------------------------------------------------------------
  // The merge as a pointwise overlay
  // ---------------------------------------------------------------------------

  /** What becomes of one stored command that the merge keeps. */
  function Resolve(known: map<Id, Command>, desired: map<Id, Command>, s: Command): Command {
    if OpId(s) !in desired then s
    else if OpId(s) in known && s != known[OpId(s)] then s
    else desired[OpId(s)]
  }

  function Overlay(known: map<Id, Command>, desired: map<Id, Command>, stored: seq<Command>): seq<Command> {
    if stored == [] then []
    else [Resolve(known, desired, stored[0])] + Overlay(known, desired, stored[1..])
  }

  /** The desired commands nobody has stored yet. */
  function Newcomers(known: map<Id, Command>, desired: seq<Command>, storedIds: set<Id>): seq<Command> {
    if desired == [] then []
    else if OpId(desired[0]) !in known && OpId(desired[0]) !in storedIds then
      [desired[0]] + Newcomers(known, desired[1..], storedIds)
    else
      Newcomers(known, desired[1..], storedIds)
  }

  lemma {:induction false} NewcomersIs(known: map<Id, Command>, desired: seq<Command>, storedIds: set<Id>)
    requires Unique(desired)
    ensures MapOf(Newcomers(known, desired, storedIds)) == MapOf(desired) - (known.Keys + storedIds)
    ensures Unique(Newcomers(known, desired, storedIds))
  {
    if desired != [] {
      NewcomersIs(known, desired[1..], storedIds);
    }
  }

  lemma {:induction false} NewcomersSkip(known: map<Id, Command>, desired: seq<Command>, storedIds: set<Id>, id: Id)
    requires id !in Ids(desired)
    ensures Newcomers(known, desired, storedIds) == Newcomers(known, desired, storedIds + {id})
  {
    if desired != [] {
      NewcomersSkip(known, desired[1..], storedIds, id);
    }
  }

  predicate WellKeyed(m: map<Id, Command>) {
    forall id | id in m :: OpId(m[id]) == id
  }

  lemma {:induction false} MapOfWellKeyed(q: seq<Command>)
    ensures WellKeyed(MapOf(q))
  {
    if q != [] {
      MapOfWellKeyed(q[1..]);
    }
  }

  lemma {:induction false} OverlayIs(known: map<Id, Command>, desired: map<Id, Command>, stored: seq<Command>)
    requires WellKeyed(desired)
    ensures |Overlay(known, desired, stored)| == |stored|
    ensures Ids(Overlay(known, desired, stored)) == Ids(stored)
    ensures Unique(stored) ==> Unique(Overlay(known, desired, stored))
    ensures forall id | id in MapOf(stored) ::
              MapOf(Overlay(known, desired, stored))[id] == Resolve(known, desired, MapOf(stored)[id])
  {
    if stored != [] {
      OverlayIs(known, desired, stored[1..]);
      assert OpId(Resolve(known, desired, stored[0])) == OpId(stored[0]);
    }
  }

  lemma {:induction false} OverlayUntouched(
    known: map<Id, Command>, desired: map<Id, Command>, c: Command, stored: seq<Command>)
    requires OpId(c) !in desired
    requires OpId(c) in Ids(stored) ==>
               Unique(stored) && OpId(c) in known && MapOf(stored)[OpId(c)] != known[OpId(c)]
    ensures Overlay(known, desired[OpId(c) := c], stored) == Overlay(known, desired, stored)
  {
    if stored != [] {
      if OpId(stored[0]) == OpId(c) {
        assert OpId(c) !in Ids(stored[1..]);
      }
      OverlayUntouched(known, desired, c, stored[1..]);
    }
  }

  lemma {:induction false} OverlayReplaced(
    known: map<Id, Command>, desired: map<Id, Command>, c: Command, stored: seq<Command>)
    requires Unique(stored) && OpId(c) !in desired && OpId(c) in Ids(stored)
    requires OpId(c) in known ==> MapOf(stored)[OpId(c)] == known[OpId(c)]
    ensures Overlay(known, desired[OpId(c) := c], stored) == Overlay(known, desired, Put(stored, c))
  {
    if OpId(stored[0]) == OpId(c) {
      OverlayUntouched(known, desired, c, stored[1..]);
    } else {
      OverlayReplaced(known, desired, c, stored[1..]);
    }
  }

  lemma {:induction false} AppendedNewcomer(
    known: map<Id, Command>, desired: map<Id, Command>, c: Command, stored: seq<Command>)
    requires OpId(c) !in desired && OpId(c) !in Ids(stored)
    ensures Overlay(known, desired, stored + [c]) == Overlay(known, desired[OpId(c) := c], stored) + [c]
  {
    if stored != [] {
      assert (stored + [c])[1..] == stored[1..] + [c];
      AppendedNewcomer(known, desired, c, stored[1..]);
    }
  }

  /** The loop over the desired commands rewrites the kept commands in place and appends the new ones. */
  lemma {:induction false} AdoptAllIsOverlay(known: map<Id, Command>, merged: seq<Command>, desired: seq<Command>)
    requires Unique(merged) && Unique(desired)
    ensures AdoptAll(known, merged, desired)
         == Overlay(known, MapOf(desired), merged) + Newcomers(known, desired, Ids(merged))
    decreases |desired|
  {
    if desired == [] {
      OverlayNothing(known, merged);
    } else {
      var c, rest := desired[0], desired[1..];
      var next := Adopt(known, merged, c);
      PutIs(merged, c);
      AdoptAllIsOverlay(known, next, rest);
      if OpId(c) in known && Get(MapOf(merged), OpId(c)) != Some(known[OpId(c)]) {
        OverlayUntouched(known, MapOf(rest), c, merged);
      } else if OpId(c) in Ids(merged) {
        OverlayReplaced(known, MapOf(rest), c, merged);
        assert Ids(next) == Ids(merged);
      } else {
        AppendedNewcomer(known, MapOf(rest), c, merged);
        NewcomersSkip(known, rest, Ids(merged), OpId(c));
        assert Ids(next) == Ids(merged) + {OpId(c)};
        var tail := Newcomers(known, rest, Ids(next));
        assert Overlay(known, MapOf(desired), merged) + [c] + tail
            == Overlay(known, MapOf(desired), merged) + ([c] + tail);
      }
    }
  }

  lemma {:induction false} OverlayNothing(known: map<Id, Command>, stored: seq<Command>)
    ensures Overlay(known, map[], stored) == stored
  {
    if stored != [] {
      OverlayNothing(known, stored[1..]);
    }
  }

  /** The merge: drop what was removed here, overlay what was edited here, insert what is new. */
  lemma MergeIsOverlay(known: map<Id, Command>, queue: seq<Command>, stored: seq<Command>)
    requires Unique(stored) && Unique(queue)
    ensures var kept := Without(stored, known.Keys - Ids(queue));
            && Unique(kept)
            && Merge(known, queue, stored)
               == SortByTime(Overlay(known, MapOf(queue), kept) + Newcomers(known, queue, Ids(kept)))
  {
    FromListIs(queue);
    FromListIs(stored);
    WithoutIs(stored, known.Keys - Ids(queue));
    AdoptAllIsOverlay(known, Without(stored, known.Keys - Ids(queue)), queue);
  }

  lemma KeptAndAdded(known: map<Id, Command>, queue: seq<Command>, kept: seq<Command>)
    requires Unique(kept) && Unique(queue)
    ensures var body := Overlay(known, MapOf(queue), kept);
            var added := Newcomers(known, queue, Ids(kept));
            Unique(body + added) && MapOf(body + added) == MapOf(body) + MapOf(added)
  {
    var body := Overlay(known, MapOf(queue), kept);
    var added := Newcomers(known, queue, Ids(kept));
    MapOfWellKeyed(queue);
    OverlayIs(known, MapOf(queue), kept);
    NewcomersIs(known, queue, Ids(kept));
    MapOfConcat(body, added);
    assert MapOf(added) + MapOf(body) == MapOf(body) + MapOf(added);
  }

  lemma MergeContents(known: map<Id, Command>, queue: seq<Command>, stored: seq<Command>)
    requires Unique(stored) && Unique(queue)
    ensures var kept := Without(stored, known.Keys - Ids(queue));
            var body := Overlay(known, MapOf(queue), kept);
            var added := Newcomers(known, queue, Ids(kept));
            && Unique(Merge(known, queue, stored)) && Sorted(Merge(known, queue, stored))
            && MapOf(Merge(known, queue, stored)) == MapOf(body) + MapOf(added)
            && Unique(body + added)
  {
    var kept := Without(stored, known.Keys - Ids(queue));
    MergeIsOverlay(known, queue, stored);
    KeptAndAdded(known, queue, kept);
    SortIs(Overlay(known, MapOf(queue), kept) + Newcomers(known, queue, Ids(kept)));
  }

  // ---------------------------------------------------------------------------
  // Main results about the merge
  // ---------------------------------------------------------------------------

  /** The merged document holds, for every operation id, exactly what the case table says. */
  lemma MergeFollowsTable(known: map<Id, Command>, queue: seq<Command>, stored: seq<Command>, id: Id)
    requires Unique(stored) && Unique(queue)
    ensures Get(MapOf(Merge(known, queue, stored)), id)
         == Table(Get(known, id), Get(MapOf(queue), id), Get(MapOf(stored), id))
  {
    MergeContents(known, queue, stored);
    var kept := Without(stored, known.Keys - Ids(queue));
    WithoutIs(stored, known.Keys - Ids(queue));
    MapOfWellKeyed(queue);
    MapOfWellKeyed(stored);
    OverlayIs(known, MapOf(queue), kept);
    NewcomersIs(known, queue, Ids(kept));
  }

  /**
   * A stored command is replaced only by an engine whose last seen copy equals it, removed only by one that
   * knew it, and added only by one that did not.
   */
  lemma ChangedOnlyIfSeen(known: map<Id, Command>, queue: seq<Command>, stored: seq<Command>, id: Id)
    requires Unique(stored) && Unique(queue)
    ensures var before, after := Get(MapOf(stored), id), Get(MapOf(Merge(known, queue, stored)), id);
            && (before.Some? && after.Some? && before != after ==>
                  after == Get(MapOf(queue), id) && (id in known ==> Some(known[id]) == before))
            && (before.Some? && after.None? ==> id in known && id !in Ids(queue))
            && (before.None? && after.Some? ==> id !in known && after == Get(MapOf(queue), id))
  {
    MergeFollowsTable(known, queue, stored, id);
  }

  /** The stored queue an arbitrary document leads to is sorted and holds each operation once. */
  lemma MergeIsCanonical(known: map<Id, Command>, queue: seq<Command>, stored: seq<Command>)
    ensures Sorted(Merge(known, queue, stored)) && Unique(Merge(known, queue, stored))
    ensures forall id :: Get(MapOf(Merge(known, queue, stored)), id)
              == Table(Get(known, id), Get(MapOf(FromList(queue)), id), Get(MapOf(FromList(stored)), id))
  {
    FromListIs(queue);
    FromListIs(stored);
    FromListIs(FromList(queue));
    FromListIs(FromList(stored));
    assert Merge(known, FromList(queue), FromList(stored)) == Merge(known, queue, stored);
    MergeContents(known, FromList(queue), FromList(stored));
    forall id ensures Get(MapOf(Merge(known, queue, stored)), id)
              == Table(Get(known, id), Get(MapOf(FromList(queue)), id), Get(MapOf(FromList(stored)), id)) {
      MergeFollowsTable(known, FromList(queue), FromList(stored), id);
    }
  }

  /** What another engine removed: every command in memory that was known and is not stored any more, in order. */
  lemma {:induction false} RemovedElsewhereAre(
    known: map<Id, Command>, p: seq<Command>, desired: seq<Command>, stored: seq<Command>)
    ensures forall c :: c in RemovedElsewhere(known, desired, stored)
                        <==> c in desired && OpId(c) in known && OpId(c) !in Ids(stored)
    ensures RemovedElsewhere(known, p + desired, stored)
         == RemovedElsewhere(known, p, stored) + RemovedElsewhere(known, desired, stored)
    decreases |p| + |desired|
  {
    if p != [] {
      assert (p + desired)[1..] == p[1..] + desired;
      RemovedElsewhereAre(known, p[1..], desired, stored);
    } else {
      assert p + desired == desired;
      if desired != [] {
        RemovedElsewhereAre(known, [], desired[1..], stored);
      }
    }
  }

  /** After adopting the merged document a second write changes nothing. */
  lemma SecondWriteIsNoOp(known: map<Id, Command>, queue: seq<Command>, stored: seq<Command>)
    ensures var next := Merge(known, queue, stored);
            Merge(MapOf(next), next, next) == next
  {
    var next := Merge(known, queue, stored);
    MergeIsCanonical(known, queue, stored);
    MergeIsOverlay(MapOf(next), next, next);
    WithoutIs(next, MapOf(next).Keys - Ids(next));
    OverlaySelf(MapOf(next), next);
    NewcomersOfKnown(MapOf(next), next, Ids(next));
    assert next + [] == next;
    SortIs(next);
  }

  lemma {:induction false} OverlaySelf(m: map<Id, Command>, q: seq<Command>)
    requires forall id | id in MapOf(q) :: id in m && m[id] == MapOf(q)[id]
    requires Unique(q)
    ensures Overlay(m, m, q) == q
  {
    if q != [] {
      assert forall id | id in MapOf(q[1..]) :: MapOf(q)[id] == MapOf(q[1..])[id];
      OverlaySelf(m, q[1..]);
      assert m[OpId(q[0])] == MapOf(q)[OpId(q[0])];
    }
  }

  lemma {:induction false} NewcomersOfKnown(known: map<Id, Command>, desired: seq<Command>, storedIds: set<Id>)
    requires Ids(desired) <= known.Keys + storedIds
    ensures Newcomers(known, desired, storedIds) == []
  {
    if desired != [] {
      NewcomersOfKnown(known, desired[1..], storedIds);
    }
  }
}
