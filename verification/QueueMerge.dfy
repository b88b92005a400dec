/**
 * The three-way merge by which one engine's in-memory queue is reconciled with the stored
 * queue document. A JavaScript Map keyed by operation id is a sequence of commands with
 * distinct ids, in insertion order; MapOf is its contents without the order.
 */
module QueueMerge {
  import opened Options
  import opened Commands

  // ---------------------------------------------------------------------------
  // Insertion-ordered maps keyed by operation id
  // ---------------------------------------------------------------------------

  function MapOf(q: seq<Command>): map<Id, Command> {
    if q == [] then map[] else MapOf(q[1..])[OpId(q[0]) := q[0]]
  }

  function Ids(q: seq<Command>): set<Id> {
    MapOf(q).Keys
  }

  ghost predicate Unique(q: seq<Command>) {
    q != [] ==> OpId(q[0]) !in Ids(q[1..]) && Unique(q[1..])
  }

  function Get(m: map<Id, Command>, id: Id): Option<Command> {
    if id in m then Some(m[id]) else None
  }

  function Put(q: seq<Command>, c: Command): seq<Command> {
    if q == [] then [c]
    else if OpId(q[0]) == OpId(c) then [c] + q[1..]
    else [q[0]] + Put(q[1..], c)
  }

  function PutAll(q: seq<Command>, cs: seq<Command>): seq<Command>
    decreases |cs|
  {
    if cs == [] then q else PutAll(Put(q, cs[0]), cs[1..])
  }

  /** The Map built from an array of commands: a repeated id keeps its first place and last value. */
  function FromList(cs: seq<Command>): seq<Command> {
    PutAll([], cs)
  }

  function Without(q: seq<Command>, ids: set<Id>): seq<Command> {
    if q == [] then []
    else if OpId(q[0]) in ids then Without(q[1..], ids)
    else [q[0]] + Without(q[1..], ids)
  }

  // ---------------------------------------------------------------------------
  // Stable sort by timestamp
  // ---------------------------------------------------------------------------

  ghost predicate NotAfter(t: Time, q: seq<Command>) {
    q == [] || t <= q[0].timestamp
  }

  ghost predicate Sorted(q: seq<Command>) {
    q != [] ==> NotAfter(q[0].timestamp, q[1..]) && Sorted(q[1..])
  }

  /** Places a later arrival behind every command that is not later in time. */
  function InsertByTime(q: seq<Command>, c: Command): seq<Command> {
    if q == [] || c.timestamp < q[0].timestamp then [c] + q
    else [q[0]] + InsertByTime(q[1..], c)
  }

  function InsertAll(q: seq<Command>, cs: seq<Command>): seq<Command>
    decreases |cs|
  {
    if cs == [] then q else InsertAll(InsertByTime(q, cs[0]), cs[1..])
  }

  function SortByTime(cs: seq<Command>): seq<Command> {
    InsertAll([], cs)
  }

  // ---------------------------------------------------------------------------
  // The merge
  // ---------------------------------------------------------------------------

  /** One iteration over the desired commands. */
  function Adopt(known: map<Id, Command>, merged: seq<Command>, c: Command): seq<Command> {
    var stored := Get(MapOf(merged), OpId(c));
    if OpId(c) in known && stored.None? then merged
    else if stored.Some? && OpId(c) in known && stored.value != known[OpId(c)] then merged
    else Put(merged, c)
  }

  function AdoptAll(known: map<Id, Command>, merged: seq<Command>, desired: seq<Command>): seq<Command>
    decreases |desired|
  {
    if desired == [] then merged
    else AdoptAll(known, Adopt(known, merged, desired[0]), desired[1..])
  }

  function Merge(known: map<Id, Command>, queue: seq<Command>, stored: seq<Command>): seq<Command> {
    var desired := FromList(queue);
    SortByTime(AdoptAll(known, Without(FromList(stored), known.Keys - Ids(desired)), desired))
  }

  /** The desired commands some other engine already removed. */
  function RemovedElsewhere(known: map<Id, Command>, desired: seq<Command>, stored: seq<Command>): seq<Command> {
    if desired == [] then []
    else
      var rest := RemovedElsewhere(known, desired[1..], stored);
      if OpId(desired[0]) in known && OpId(desired[0]) !in Ids(stored) then [desired[0]] + rest else rest
  }

  /** The per-command case table the merge is meant to compute. */
  function Table(known: Option<Command>, desired: Option<Command>, stored: Option<Command>): Option<Command> {
    if desired.None? then
      if known.Some? then None else stored
    else if known.Some? && stored.None? then None
    else if known.Some? && stored.Some? && stored != known then stored
    else desired
  }
}
