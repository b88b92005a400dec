/**
 * Catching up with the server's event log: pages are fetched from a stored cursor, each event is applied
 * and only then acknowledged, and the process may stop at any moment.
 */
module CatchUp {
  import opened Options

  /** Event ids; 0 stands for the empty cursor before the first event. */
  type EventId = nat
  type Log = seq<EventId>

  datatype Page = Page(events: seq<EventId>, hasMore: bool, requiresFullRefresh: bool, cursor: Option<EventId>)

  /** What the local replica went through: one event applied, or replaced by the server's state at a position. */
  datatype Entry = Applied(event: EventId) | Refreshed(position: nat)

  /** The stored baseline. A stored cursor is never empty. */
  datatype Baseline = Missing | Initialized(cursor: Option<EventId>)

  /** What survives a crash. */
  datatype Durable = Durable(history: seq<Entry>, baseline: Baseline)

  ghost predicate WellFormed(log: Log) {
    && (forall i | 0 <= i < |log| :: log[i] != 0)
    && (forall i, j | 0 <= i < j < |log| :: log[i] != log[j])
  }

  /** The cursor that stands behind the first n events. */
  function CursorAt(log: Log, n: nat): EventId
    requires n <= |log|
  {
    if n == 0 then 0 else log[n - 1]
  }

  // ---------------------------------------------------------------------------
  // How far a replica is
  // ---------------------------------------------------------------------------

  function Find(log: Log, event: EventId): Option<nat> {
    if log == [] then None
    else if log[|log| - 1] == event then Some(|log| - 1)
    else Find(log[..|log| - 1], event)
  }

  function Max(a: nat, b: nat): nat {
    if a < b then b else a
  }

  /** A history that covers the first n events, one entry later; None if the entry comes out of order. */
  function Extended(log: Log, n: nat, entry: Entry): Option<nat> {
    match entry
    case Applied(id) =>
      var k := Find(log, id);
      if k.Some? && k.value <= n then Some(Max(n, k.value + 1)) else None
    case Refreshed(position) =>
      if n <= position <= |log| then Some(position) else None
  }

  /**
   * The length of the log prefix a history covers; None if an event was applied before an earlier one, or
   * a refresh went backwards.
   */
  function Reach(log: Log, history: seq<Entry>): Option<nat> {
    if history == [] then Some(0)
    else
      var before := Reach(log, history[..|history| - 1]);
      if before.None? then None else Extended(log, before.value, history[|history| - 1])
  }

  /** The number of events a history covers. */
  function Covered(log: Log, history: seq<Entry>): nat {
    Reach(log, history).GetOr(0)
  }

  /** The position a stored baseline stands for. */
  ghost predicate StoredAt(log: Log, baseline: Baseline, n: nat) {
    && n <= |log|
    && match baseline
       case Missing => n == 0
       case Initialized(None) => n == 0
       case Initialized(Some(id)) => n > 0 && id == CursorAt(log, n)
  }

  /** The stored cursor is not ahead of what was applied, and everything was applied in order. */
  ghost predicate Safe(log: Log, d: Durable) {
    var reach := Reach(log, d.history);
    reach.Some? && reach.value <= |log| && exists n: nat :: StoredAt(log, d.baseline, n) && n <= reach.value
  }

  lemma {:induction false} FindAt(log: Log, k: nat)
    requires WellFormed(log) && k < |log|
    ensures Find(log, log[k]) == Some(k)
  {
    if k < |log| - 1 {
      FindAt(log[..|log| - 1], k);
    }
  }

  lemma {:induction false} FindIs(log: Log, event: EventId)
    ensures Find(log, event).Some? ==> Find(log, event).value < |log| && log[Find(log, event).value] == event
  {
    if log != [] {
      FindIs(log[..|log| - 1], event);
    }
  }

  lemma ReachAppend(log: Log, history: seq<Entry>, entry: Entry)
    requires Reach(log, history).Some?
    ensures Reach(log, history + [entry]) == Extended(log, Reach(log, history).value, entry)
  {
    assert (history + [entry])[..|history|] == history;
  }

  /** Every event below the reach of a history without refreshes was applied, each only after all earlier ones. */
  lemma {:induction false} AppliedInOrder(log: Log, history: seq<Entry>, j: nat)
    requires WellFormed(log) && Reach(log, history).Some? && forall i | 0 <= i < |history| :: history[i].Applied?
    requires j < Reach(log, history).value
    ensures Reach(log, history).value <= |log| && Applied(log[j]) in history
    ensures forall i, k | 0 <= i < |history| && j < k < |log| && history[i] == Applied(log[k]) ::
              Applied(log[j]) in history[..i]
  {
    var rest, last := history[..|history| - 1], history[|history| - 1];
    assert history == rest + [last];
    var n := Reach(log, rest).value;
    FindIs(log, last.event);
    var m := Find(log, last.event).value;
    if j < n {
      AppliedInOrder(log, rest, j);
    } else {
      ReachBounds(log, rest);
    }
    forall i, k | 0 <= i < |history| && j < k < |log| && history[i] == Applied(log[k])
      ensures Applied(log[j]) in history[..i]
    {
      if i < |rest| {
        assert history[..i] == rest[..i] && rest[i] == Applied(log[k]);
        if n <= j {
          NotBeyondReach(log, rest, i, k);
        }
      } else {
        FindAt(log, k);
        assert history[..i] == rest;
      }
    }
  }

  lemma {:induction false} ReachBounds(log: Log, history: seq<Entry>)
    requires Reach(log, history).Some?
    ensures Reach(log, history).value <= |log|
  {
    if history != [] {
      ReachBounds(log, history[..|history| - 1]);
      if history[|history| - 1].Applied? {
        FindIs(log, history[|history| - 1].event);
      }
    }
  }

  /** Nothing beyond its reach occurs in a history. */
  lemma {:induction false} NotBeyondReach(log: Log, history: seq<Entry>, i: nat, k: nat)
    requires WellFormed(log) && Reach(log, history).Some?
    requires i < |history| && k < |log| && history[i] == Applied(log[k])
    ensures k < Reach(log, history).value
  {
    FindAt(log, k);
    if i < |history| - 1 {
      NotBeyondReach(log, history[..|history| - 1], i, k);
    }
  }

  // ---------------------------------------------------------------------------
  // The server and the outside world
  // ---------------------------------------------------------------------------

  /** Applying an event may fail with or without having changed the replica. */
  datatype Outcome = Done | FailedBefore | FailedAfter

  /**
   * Fetching a page, applying an event, replacing the replica from the server, initialising it. A refresh
   * reports how many events its snapshot covers, an initialisation also where its cursor stands; None
   * means that the call failed.
   */
  datatype World<!S> = World(
    fetch: (S, EventId) -> (Page, S),
    apply: (S, EventId) -> (Outcome, S),
    refresh: S -> (Option<nat>, S),
    initialize: S -> (Option<(nat, EventId)>, S))

  /** A page continues the log where it was asked to, and its cursor stands right behind its events. */
  ghost predicate Continues(log: Log, p: nat, page: Page, known: nat)
    requires known <= |log|
  {
    if page.requiresFullRefresh then
      page.cursor.Some? ==> exists r :: 0 <= r <= known && page.cursor.value == CursorAt(log, r)
    else
      var q := p + |page.events|;
      q <= known && page.events == log[p..q] && (page.cursor.Some? ==> page.cursor.value == CursorAt(log, q))
  }

  ghost predicate FetchOk<S(!new)>(log: Log, w: World<S>, known: S -> nat, s: S, p: nat) {
    p <= known(s) <= |log| ==>
      var (page, t) := w.fetch(s, CursorAt(log, p));
      known(s) <= known(t) <= |log| && Continues(log, p, page, known(t))
  }

  ghost predicate ApplyOk<S(!new)>(log: Log, w: World<S>, known: S -> nat, s: S, id: EventId) {
    known(s) <= known(w.apply(s, id).1) <= |log|
  }

  ghost predicate RefreshOk<S(!new)>(log: Log, w: World<S>, known: S -> nat, s: S) {
    var (m, t) := w.refresh(s);
    known(s) <= known(t) <= |log| && (m.Some? ==> known(s) <= m.value <= known(t))
  }

  ghost predicate InitializeOk<S(!new)>(log: Log, w: World<S>, known: S -> nat, s: S) {
    var (m, t) := w.initialize(s);
    && known(s) <= known(t) <= |log|
    && (m.Some? ==>
          && known(s) <= m.value.0 <= known(t)
          && exists r: nat :: r <= m.value.0 && m.value.1 == CursorAt(log, r))
  }

  /**
   * The server serves one growing log. known says how much of it exists; nothing beyond that is served, and
   * snapshots cover at least what existed when they were asked for.
   */
  ghost predicate Faithful<S(!new)>(log: Log, w: World<S>, known: S -> nat) {
    && WellFormed(log)
    && (forall s, p :: FetchOk(log, w, known, s, p))
    && (forall s, id :: ApplyOk(log, w, known, s, id))
    && (forall s :: RefreshOk(log, w, known, s))
    && (forall s :: InitializeOk(log, w, known, s))
  }

  /** No call fails, every page makes progress, and there is more exactly as long as the log goes on. */
  ghost predicate WellBehaved<S(!new)>(log: Log, w: World<S>, known: S -> nat) {
    && (forall s :: known(s) == |log|)
    && (forall s, p | 0 <= p <= |log| ::
          var page := w.fetch(s, CursorAt(log, p)).0;
          && !page.requiresFullRefresh && (page.hasMore <==> p + |page.events| < |log|)
          && (page.hasMore ==> page.events != []))
    && (forall s, id :: w.apply(s, id).0 == Done)
    && (forall s :: w.initialize(s).0.Some?)
  }

  /**
   * The server demands a full refresh only from cursors below the horizon, because it no longer has those events, and
   * names one at or above it.
   */
  ghost predicate HasHorizon<S(!new)>(log: Log, w: World<S>, h: nat) {
    forall s, p | 0 <= p <= |log| && w.fetch(s, CursorAt(log, p)).0.requiresFullRefresh ::
      p < h && ReachesHorizon(log, h, w.fetch(s, CursorAt(log, p)).0.cursor)
  }

  ghost predicate ReachesHorizon(log: Log, h: nat, cursor: Option<EventId>) {
    cursor.Some? && exists r :: h <= r <= |log| && cursor.value == CursorAt(log, r)
  }

  lemma FetchIsFaithful<S(!new)>(log: Log, w: World<S>, known: S -> nat, s: S, p: nat)
    requires Faithful(log, w, known) && p <= known(s) <= |log|
    ensures WellFormed(log)
    ensures var (page, t) := w.fetch(s, CursorAt(log, p));
            known(s) <= known(t) <= |log| && Continues(log, p, page, known(t))
    ensures WellBehaved(log, w, known) ==>
              var page := w.fetch(s, CursorAt(log, p)).0;
              && !page.requiresFullRefresh && (page.hasMore <==> p + |page.events| < |log|)
              && (page.hasMore ==> page.events != [])
  {
    assert FetchOk(log, w, known, s, p);
  }

  lemma ApplyIsFaithful<S(!new)>(log: Log, w: World<S>, known: S -> nat, s: S, id: EventId)
    requires Faithful(log, w, known)
    ensures known(s) <= known(w.apply(s, id).1) <= |log| && WellFormed(log)
    ensures WellBehaved(log, w, known) ==> w.apply(s, id).0 == Done
  {
    assert ApplyOk(log, w, known, s, id);
  }

  /** A server that pages through a finished log. */
  function Served(log: Log, limit: nat, cursor: EventId): Page {
    var p := if cursor == 0 || Find(log, cursor).None? then 0 else Find(log, cursor).value + 1;
    var q := if p + limit <= |log| then p + limit else |log|;
    if p <= q then Page(log[p..q], q < |log|, false, Some(CursorAt(log, q))) else Page([], false, false, None)
  }

  function PagedWorld(log: Log, limit: nat): World<()> {
    World((s: (), cursor: EventId) => (Served(log, limit, cursor), s),
          (s: (), id: EventId) => (Done, s),
          (s: ()) => (Some(|log|), s),
          (s: ()) => (Some((|log|, CursorAt(log, |log|))), s))
  }

  lemma ServedIs(log: Log, limit: nat, p: nat)
    requires WellFormed(log) && limit > 0 && p <= |log|
    ensures var q := if p + limit <= |log| then p + limit else |log|;
            Served(log, limit, CursorAt(log, p)) == Page(log[p..q], q < |log|, false, Some(CursorAt(log, q)))
  {
    if p > 0 {
      FindAt(log, p - 1);
    }
  }

  lemma ServedContinues(log: Log, limit: nat, p: nat)
    requires WellFormed(log) && limit > 0 && p <= |log|
    ensures var page := Served(log, limit, CursorAt(log, p));
            && Continues(log, p, page, |log|) && !page.requiresFullRefresh
            && (page.hasMore <==> p + |page.events| < |log|) && (page.hasMore ==> page.events != [])
  {
    hide Served, WellFormed;
    ServedIs(log, limit, p);
  }

  /** Paging through a log with any positive page size is faithful and well-behaved. */
  lemma PagedWorldIsWellBehaved(log: Log, limit: nat)
    requires WellFormed(log) && limit > 0
    ensures Faithful(log, PagedWorld(log, limit), (s: ()) => |log|)
    ensures WellBehaved(log, PagedWorld(log, limit), (s: ()) => |log|)
  {
    hide Served, WellFormed, Continues, CursorAt;
    forall p | 0 <= p <= |log|
      ensures var page := Served(log, limit, CursorAt(log, p));
              && Continues(log, p, page, |log|) && !page.requiresFullRefresh
              && (page.hasMore <==> p + |page.events| < |log|) && (page.hasMore ==> page.events != [])
    {
      ServedContinues(log, limit, p);
    }
  }

  // ---------------------------------------------------------------------------
  // The client
  // ---------------------------------------------------------------------------

  /** The page fetched at this cursor demands a full refresh, and the catch-up goes on from the cursor after. */
  ghost predicate Demanded<S(!new)>(w: World<S>, s: S, cursor: EventId, after: EventId) {
    var page := w.fetch(s, cursor).0;
    && page.requiresFullRefresh && after == (if page.cursor.Some? then page.cursor.value else cursor)
    && w.refresh(w.fetch(s, cursor).1).0.Some?
  }

  /** What the refresh after that page covers. */
  ghost function RefreshedAt<S(!new)>(w: World<S>, s: S, cursor: EventId): nat {
    w.refresh(w.fetch(s, cursor).1).0.GetOr(0)
  }

  /** The cursor a catch-up ended at is stored; the empty one only over an existing baseline. */
  predicate EndStored(before: Baseline, cursor: EventId, after: Baseline) {
    if cursor != 0 then after == Initialized(Some(cursor)) else before != Missing ==> after == Initialized(None)
  }

  /** A process that can initialise starts with that: once, and whenever there is no baseline. */
  predicate Begins(canInitialize: bool, validated: bool, baseline: Baseline) {
    canInitialize && (!validated || baseline == Missing)
  }

  datatype Result = Finished(cursor: EventId, processed: nat, refreshed: bool) | Threw

  function AppliedAll(events: seq<EventId>): seq<Entry> {
    if events == [] then [] else AppliedAll(events[..|events| - 1]) + [Applied(events[|events| - 1])]
  }

  /** Everything durable since position start was safe. */
  ghost predicate AllSafe(log: Log, trace: seq<Durable>, start: nat) {
    forall k | start <= k < |trace| :: Safe(log, trace[k])
  }

  /** The record of durable states grew, and everything added is safe. */
  ghost predicate Logged(log: Log, before: seq<Durable>, after: seq<Durable>) {
    |before| <= |after| && after[..|before|] == before && AllSafe(log, after, |before|)
  }

  lemma LoggedBoth(log: Log, t0: seq<Durable>, t1: seq<Durable>, t2: seq<Durable>)
    requires Logged(log, t0, t1) && Logged(log, t1, t2)
    ensures Logged(log, t0, t2)
  {
    assert t2[..|t0|] == t2[..|t1|][..|t0|];
    forall k | |t0| <= k < |t2| ensures Safe(log, t2[k]) {
      assert k < |t1| ==> t2[k] == t2[..|t1|][k] == t1[k];
    }
  }

  lemma NothingLogged(log: Log, t: seq<Durable>)
    ensures Logged(log, t, t)
  {
  }

  lemma SafeAt(log: Log, d: Durable, n: nat)
    requires Reach(log, d.history).Some? && StoredAt(log, d.baseline, n) && n <= Reach(log, d.history).value
    ensures Safe(log, d)
  {
    ReachBounds(log, d.history);
  }

  /** Where a catch-up starts: the stored cursor, or the empty one. */
  function CursorOf(baseline: Baseline): EventId {
    if baseline == Missing then 0 else baseline.cursor.GetOr(0)
  }

  lemma StoredPosition(log: Log, d: Durable) returns (n: nat)
    requires Safe(log, d)
    ensures StoredAt(log, d.baseline, n) && n <= Covered(log, d.history) && n <= |log|
    ensures CursorOf(d.baseline) == CursorAt(log, n)
  {
    n :| StoredAt(log, d.baseline, n) && n <= Covered(log, d.history);
  }

  lemma CursorsDiffer(log: Log, p: nat, q: nat)
    requires WellFormed(log) && p < q <= |log|
    ensures CursorAt(log, p) != CursorAt(log, q)
  {
  }

  /** Without refreshes, every event up to the stored cursor has been applied. */
  lemma NothingIsSkipped(log: Log, d: Durable, n: nat, j: nat)
    requires WellFormed(log) && Safe(log, d) && StoredAt(log, d.baseline, n) && j < n
    requires forall i | 0 <= i < |d.history| :: d.history[i].Applied?
    ensures Applied(log[j]) in d.history
  {
    var m := StoredPosition(log, d);
    SamePosition(log, m, n);
    AppliedInOrder(log, d.history, j);
  }

  lemma SamePosition(log: Log, m: nat, n: nat)
    requires WellFormed(log) && m <= |log| && n <= |log| && CursorAt(log, m) == CursorAt(log, n)
    ensures m == n
  {
  }

  class SyncClient {
    var history: seq<Entry>
    var baseline: Baseline
    var validated: bool
    ghost var trace: seq<Durable>

    ghost function Now(): Durable
      reads this
    {
      Durable(history, baseline)
    }

    /** Nothing that was applied is undone. */
    twostate predicate Grew()
      reads this
    {
      |old(history)| <= |history| && history[..|old(history)|] == old(history)
    }

    /** A fresh process on what the last one left behind. */
    constructor (left: Durable)
      ensures Now() == left && !validated && trace == []
    {
      history, baseline, validated, trace := left.history, left.baseline, false, [];
    }

    /** The replica changed. */
    method Record(entry: Entry)
      modifies this`history, this`trace
      ensures history == old(history) + [entry] && trace == old(trace) + [Now()]
    {
      history := history + [entry];
      trace := trace + [Now()];
    }

    method StoreBaseline(cursor: Option<EventId>)
      modifies this`baseline, this`trace
      ensures baseline == Initialized(cursor) && trace == old(trace) + [Now()]
    {
      baseline := Initialized(cursor);
      trace := trace + [Now()];
    }

    /** Applies the event at position k and, if that went well, acknowledges it. */
    method ApplyEvent<S(!new)>(ghost log: Log, w: World<S>, ghost known: S -> nat, s: S, id: EventId, ghost k: nat)
      returns (ok: bool, t: S)
      requires Faithful(log, w, known) && Safe(log, Now()) && k < |log| && id == log[k]
      requires k <= Covered(log, history) <= known(s) && k < known(s)
      modifies this`history, this`baseline, this`trace
      ensures ok == (w.apply(s, id).0 == Done) && t == w.apply(s, id).1 && known(s) <= known(t)
      ensures Logged(log, old(trace), trace)
      ensures Grew()
      ensures Safe(log, Now()) && Covered(log, history) <= known(t)
      ensures old(Covered(log, history)) <= Covered(log, history)
      ensures history == old(history) + if w.apply(s, id).0 == FailedBefore then [] else [Applied(id)]
      ensures baseline == if ok then Initialized(Some(id)) else old(baseline)
      ensures ok ==> Covered(log, history) == Max(old(Covered(log, history)), k + 1)
    {
      hide Faithful, WellBehaved, Reach, Find;
      ApplyIsFaithful(log, w, known, s, id);
      ReachBounds(log, history);
      var answer := w.apply(s, id);
      var outcome := answer.0;
      t := answer.1;
      ok := outcome == Done;
      if outcome != FailedBefore {
        FindAt(log, k);
        ReachAppend(log, history, Applied(id));
        ghost var n: nat :| StoredAt(log, baseline, n) && n <= Covered(log, history);
        Record(Applied(id));
        SafeAt(log, Now(), n);
        if ok {
          StoreBaseline(Some(id));
          SafeAt(log, Now(), k + 1);
        }
      }
    }

    /** Applies one page, event by event. */
    method ApplyPage<S(!new)>(
      ghost log: Log, w: World<S>, ghost known: S -> nat, s: S, events: seq<EventId>, ghost p: nat)
      returns (ok: bool, t: S)
      requires Faithful(log, w, known) && Safe(log, Now())
      requires p <= Covered(log, history) <= known(s) && p + |events| <= known(s) <= |log|
      requires events == log[p..p + |events|]
      modifies this`history, this`baseline, this`trace
      ensures Logged(log, old(trace), trace)
      ensures Grew()
      ensures Safe(log, Now()) && Covered(log, history) <= known(t) && known(s) <= known(t) <= |log|
      ensures ok ==> history == old(history) + AppliedAll(events)
      ensures old(Covered(log, history)) <= Covered(log, history)
      ensures ok ==> p + |events| <= Covered(log, history)
      ensures WellBehaved(log, w, known) ==> ok
    {
      hide Faithful, WellBehaved, Reach, Safe;
      ok, t := true, s;
      var i := 0;
      assert events[..0] == [];
      while i < |events| && ok
        invariant i <= |events| && known(s) <= known(t) <= |log|
        invariant Logged(log, old(trace), trace)
        invariant Grew()
        invariant Safe(log, Now()) && Covered(log, history) <= known(t)
        invariant ok ==> history == old(history) + AppliedAll(events[..i])
        invariant old(Covered(log, history)) <= Covered(log, history)
        invariant ok ==> p + i <= Covered(log, history)
        invariant WellBehaved(log, w, known) ==> ok
        decreases |events| - i, ok
      {
        ApplyIsFaithful(log, w, known, t, events[i]);
        ok, t := ApplyEvent(log, w, known, t, events[i], p + i);
        assert events[..i + 1][..i] == events[..i];
        i := i + 1;
      }
      assert events[..|events|] == events;
    }

    /** The server asked for a full refresh: the replica is replaced, and the cursor demanded with it is kept. */
    method Refresh<S(!new)>(
      ghost log: Log, w: World<S>, ghost known: S -> nat, s: S, demanded: Option<EventId>, cursor: EventId,
      ghost p: nat)
      returns (result: Result, t: S, ghost r: nat)
      requires Faithful(log, w, known) && Safe(log, Now())
      requires p <= Covered(log, history) <= known(s) <= |log| && cursor == CursorAt(log, p)
      requires demanded.Some? ==> exists q: nat :: q <= known(s) && demanded.value == CursorAt(log, q)
      modifies this`history, this`trace
      ensures Logged(log, old(trace), trace)
      ensures Grew()
      ensures Safe(log, Now()) && Covered(log, history) <= known(t) <= |log|
      ensures old(Covered(log, history)) <= Covered(log, history)
      ensures result.Finished? ==> r <= Covered(log, history) && result.cursor == CursorAt(log, r)
      ensures result.Finished? ==> result == Finished(if demanded.Some? then demanded.value else cursor, 0, true)
      ensures result.Finished? <==> w.refresh(s).0.Some?
      ensures history == old(history) + if result.Finished? then [Refreshed(w.refresh(s).0.value)] else []
    {
      assert RefreshOk(log, w, known, s);
      hide Faithful, Reach;
      ReachBounds(log, history);
      var answer := w.refresh(s);
      t := answer.1;
      r := p;
      if answer.0.None? {
        return Threw, t, r;
      }
      ghost var n: nat :| StoredAt(log, baseline, n) && n <= Covered(log, history);
      ReachAppend(log, history, Refreshed(answer.0.value));
      Record(Refreshed(answer.0.value));
      SafeAt(log, Now(), n);
      if demanded.Some? {
        r :| r <= known(s) && demanded.value == CursorAt(log, r);
      }
      result := Finished(demanded.GetOr(cursor), 0, true);
    }

    /** Fetches one page and deals with it; stop says how the loop ends if it ends here. */
    method OnePage<S(!new)>(ghost log: Log, w: World<S>, ghost known: S -> nat, s: S, cursor: EventId, ghost p: nat)
      returns (stop: Option<Result>, next: EventId, count: nat, more: bool, t: S, ghost q: nat)
      requires Faithful(log, w, known) && Safe(log, Now())
      requires p <= Covered(log, history) <= known(s) <= |log| && cursor == CursorAt(log, p)
      modifies this`history, this`baseline, this`trace
      ensures Logged(log, old(trace), trace)
      ensures Grew()
      ensures Safe(log, Now()) && Covered(log, history) <= known(t) <= |log|
      ensures q <= Covered(log, history) && next == CursorAt(log, q)
      ensures stop.None? ==> p <= q && count == q - p && history == old(history) + AppliedAll(log[p..q])
      ensures stop.None? && more ==> p < q
      ensures stop.Some? ==> stop.value.Threw? || stop.value == Finished(next, 0, true)
      ensures stop == Some(Finished(next, 0, true)) ==>
                Demanded(w, s, cursor, next) && history == old(history) + [Refreshed(RefreshedAt(w, s, cursor))]
      ensures stop.None? ==> !w.fetch(s, cursor).0.requiresFullRefresh
      ensures WellBehaved(log, w, known) ==> stop.None? && (!more ==> q == |log|)
    {
      hide Faithful, WellBehaved, Reach, Safe;
      FetchIsFaithful(log, w, known, s, p);
      stop, next, count, more, q := None, cursor, 0, false, p;
      var answer := w.fetch(s, cursor);
      var page := answer.0;
      if page.requiresFullRefresh {
        var result;
        result, t, q := Refresh(log, w, known, answer.1, page.cursor, cursor, p);
        stop := Some(result);
        next := if result.Finished? then result.cursor else cursor;
        if result.Threw? {
          q := p;
        }
        return;
      }
      var ok;
      ok, t := ApplyPage(log, w, known, answer.1, page.events, p);
      if !ok {
        stop := Some(Threw);
        return;
      }
      q, count := p + |page.events|, |page.events|;
      next := if page.cursor.Some? then page.cursor.value
              else if page.events != [] then page.events[|page.events| - 1] else cursor;
      if p < q {
        CursorsDiffer(log, p, q);
      }
      more := page.hasMore && next != cursor;
    }

    /**
     * The page loop. Whatever the world does, nothing durable on the way is unsafe; if it finishes without
     * a refresh, exactly the events up to the returned cursor were applied, once and in order.
     */
    method RunCatchUp<S(!new)>(ghost log: Log, w: World<S>, ghost known: S -> nat, s: S, initial: EventId, ghost p: nat)
      returns (result: Result, t: S, ghost r: nat, ghost last: S, ghost q: nat)
      requires Faithful(log, w, known) && Safe(log, Now())
      requires p <= Covered(log, history) <= known(s) <= |log| && initial == CursorAt(log, p)
      modifies this`history, this`baseline, this`trace
      ensures Logged(log, old(trace), trace)
      ensures Grew()
      ensures Safe(log, Now()) && Covered(log, history) <= known(t) <= |log|
      ensures result.Finished? ==> r <= Covered(log, history) && result.cursor == CursorAt(log, r)
      ensures result.Finished? && !result.refreshed ==>
                p <= r && result.processed == r - p && history == old(history) + AppliedAll(log[p..r])
      ensures result.Finished? && result.refreshed ==>
                && p <= q <= |log| && result.processed == q - p && Demanded(w, last, CursorAt(log, q), result.cursor)
                && history == old(history) + AppliedAll(log[p..q]) + [Refreshed(RefreshedAt(w, last, CursorAt(log, q)))]
      ensures WellBehaved(log, w, known) ==> result.Finished? && !result.refreshed && r == |log|
    {
      hide Faithful, WellBehaved, Reach, Safe, AppliedAll, Demanded, RefreshedAt;
      var cursor, processed, more := initial, 0, true;
      t, r, last, q := s, p, s, p;
      NothingApplied(log, p);
      while more
        invariant Logged(log, old(trace), trace)
        invariant Grew()
        invariant Safe(log, Now()) && Covered(log, history) <= known(t) <= |log|
        invariant p <= r <= Covered(log, history) && cursor == CursorAt(log, r)
        invariant processed == r - p && history == old(history) + AppliedAll(log[p..r])
        invariant !more && WellBehaved(log, w, known) ==> r == |log|
        decreases |log| - r, more
      {
        var stop, next, count, again;
        ghost var behind;
        last, q := t, r;
        stop, next, count, again, t, behind := OnePage(log, w, known, t, cursor, r);
        if stop.Some? {
          result, r := stop.value, behind;
          if result.Finished? {
            result := result.(processed := processed);
          }
          return;
        }
        AppliedMore(log, p, r, behind);
        cursor, processed, more, r := next, processed + count, again, behind;
      }
      result := Finished(cursor, processed, false);
    }

    /** Makes sure there is a validated baseline to catch up from. */
    method Initialize<S(!new)>(ghost log: Log, w: World<S>, ghost known: S -> nat, s: S) returns (ok: bool, t: S)
      requires Faithful(log, w, known) && Safe(log, Now()) && Covered(log, history) <= known(s) <= |log|
      modifies this
      ensures Logged(log, old(trace), trace)
      ensures Grew()
      ensures Safe(log, Now()) && Covered(log, history) <= known(t) <= |log|
      ensures ok == w.initialize(s).0.Some? && t == w.initialize(s).1
      ensures ok ==> validated && baseline.Initialized?
                     && CursorOf(baseline) == w.initialize(s).0.value.1
                     && history == old(history) + [Refreshed(w.initialize(s).0.value.0)]
      ensures !ok ==> validated == old(validated) && baseline == old(baseline) && history == old(history)
      ensures WellBehaved(log, w, known) ==> ok
    {
      assert InitializeOk(log, w, known, s);
      assert WellBehaved(log, w, known) ==> w.initialize(s).0.Some?;
      hide Faithful, WellBehaved, Reach;
      ReachBounds(log, history);
      var answer := w.initialize(s);
      ok, t := answer.0.Some?, answer.1;
      if ok {
        var (position, cursor) := answer.0.value;
        ghost var n: nat :| StoredAt(log, baseline, n) && n <= Covered(log, history);
        ReachAppend(log, history, Refreshed(position));
        Record(Refreshed(position));
        SafeAt(log, Now(), n);
        StoreBaseline(if cursor == 0 then None else Some(cursor));
        ghost var r: nat :| r <= position && cursor == CursorAt(log, r);
        SafeAt(log, Now(), if cursor == 0 then 0 else r);
        validated := true;
      }
    }

    /** The second half of a catch-up: from the stored cursor on, and storing where that ends. */
    method Resume<S(!new)>(ghost log: Log, w: World<S>, ghost known: S -> nat, s: S)
      returns (result: Result, t: S, ghost p: nat, ghost last: S, ghost q: nat)
      requires Faithful(log, w, known) && Safe(log, Now()) && Covered(log, history) <= known(s) <= |log|
      modifies this`history, this`baseline, this`trace
      ensures Logged(log, old(trace), trace)
      ensures Grew()
      ensures Safe(log, Now()) && Covered(log, history) <= known(t) <= |log|
      ensures p <= |log| && StoredAt(log, old(baseline), p) && CursorOf(old(baseline)) == CursorAt(log, p)
      ensures WellBehaved(log, w, known) ==>
                && result.Finished? && Covered(log, history) == |log| && StoredAt(log, baseline, |log|)
                && history == old(history) + AppliedAll(log[p..])
      ensures result.Finished? ==> EndStored(old(baseline), result.cursor, baseline)
      ensures result.Finished? && result.refreshed ==>
                p <= q <= |log| && Demanded(w, last, CursorAt(log, q), result.cursor)
    {
      assert WellFormed(log);
      hide Faithful, WellBehaved, WellFormed, Reach, Covered, AppliedAll, Safe, StoredAt, CursorOf, Logged, Demanded;
      ghost var t1 := trace;
      p := StoredPosition(log, Now());
      var hadBaseline := baseline != Missing;
      ghost var r;
      result, t, r, last, q := RunCatchUp(log, w, known, s, CursorOf(baseline), p);
      ghost var t2 := trace;
      assert r == |log| && p <= r ==> log[p..r] == log[p..];
      if result.Finished? {
        StoreResult(log, result.cursor, hadBaseline, r);
        LoggedBoth(log, t1, t2, trace);
      }
    }

    /**
     * One catch-up of the orchestrator, started on whatever survived the last run. However it ends, everything
     * durable on the way was safe, so the next one can start from there.
     */
    method CatchUp<S(!new)>(ghost log: Log, w: World<S>, ghost known: S -> nat, s: S, canInitialize: bool)
      returns (ok: bool, t: S, ghost p: nat, ghost result: Result, ghost last: S, ghost q: nat)
      requires Faithful(log, w, known) && Safe(log, Now()) && Covered(log, history) <= known(s) <= |log|
      modifies this
      ensures Logged(log, old(trace), trace)
      ensures Grew()
      ensures Safe(log, Now()) && Covered(log, history) <= known(t) <= |log|
      ensures WellBehaved(log, w, known) ==>
                ok && Covered(log, history) == |log| && StoredAt(log, baseline, |log|)
      ensures WellBehaved(log, w, known) && (canInitialize ==> old(validated) && old(baseline) != Missing) ==>
                StoredAt(log, old(baseline), p) && history == old(history) + AppliedAll(log[p..])
      ensures ok ==> result.Finished? && (canInitialize ==> validated && baseline.Initialized?)
      ensures ok && result.cursor != 0 ==> baseline == Initialized(Some(result.cursor))
      ensures ok && result.cursor == 0 && old(baseline) != Missing ==> baseline == Initialized(None)
      ensures ok && result.refreshed ==> p <= q <= |log| && Demanded(w, last, CursorAt(log, q), result.cursor)
      ensures if Begins(canInitialize, old(validated), old(baseline)) then
                var answer := w.initialize(s).0;
                if answer.None? then
                  !ok && history == old(history) && baseline == old(baseline) && validated == old(validated)
                else
                  && validated && p <= |log| && CursorAt(log, p) == answer.value.1
                  && |history| > |old(history)|
                  && history[..|old(history)| + 1] == old(history) + [Refreshed(answer.value.0)]
              else validated == old(validated) && p <= |log| && StoredAt(log, old(baseline), p)
    {
      hide Faithful, WellBehaved, Reach, Covered, AppliedAll, Safe, StoredAt, Logged, Demanded;
      ok, t, p, result, last, q := true, s, 0, Threw, s, 0;
      ghost var t0 := trace;
      NothingLogged(log, t0);
      if Begins(canInitialize, validated, baseline) {
        ok, t := Initialize(log, w, known, s);
        if !ok {
          return;
        }
      }
      ghost var t1 := trace;
      var finished;
      finished, t, p, last, q := Resume(log, w, known, t);
      LoggedBoth(log, t0, t1, trace);
      result, ok := finished, finished.Finished?;
    }

    /** Stores where a catch-up ended; an empty cursor is only stored over an existing baseline. */
    method StoreResult(ghost log: Log, cursor: EventId, hadBaseline: bool, ghost r: nat)
      requires WellFormed(log) && Safe(log, Now()) && r <= Covered(log, history) && r <= |log|
      requires cursor == CursorAt(log, r)
      modifies this`baseline, this`trace
      ensures Logged(log, old(trace), trace)
      ensures Safe(log, Now())
      ensures cursor != 0 || hadBaseline || |log| == 0 ==> StoredAt(log, baseline, r)
      ensures baseline == if cursor != 0 then Initialized(Some(cursor))
                          else if hadBaseline then Initialized(None) else old(baseline)
    {
      hide Reach;
      if cursor != 0 {
        StoreBaseline(Some(cursor));
        SafeAt(log, Now(), r);
      } else if hadBaseline {
        StoreBaseline(None);
        SafeAt(log, Now(), 0);
      }
    }
  }

  /**
   * With a horizon a catch-up that refreshed stores a cursor at or above it, so whatever later catch-up starts from
   * that cursor or a later one is not asked to refresh again.
   */
  lemma RefreshesOnce<S(!new)>(
    log: Log, w: World<S>, h: nat, s: S, q: nat, cursor: EventId, before: Baseline, after: Baseline, n: nat)
    requires WellFormed(log) && HasHorizon(log, w, h) && q <= |log|
    requires Demanded(w, s, CursorAt(log, q), cursor) && EndStored(before, cursor, after) && StoredAt(log, after, n)
    ensures h <= n
    ensures forall t, p, next | n <= p <= |log| :: !Demanded(w, t, CursorAt(log, p), next)
  {
    assert q < h && ReachesHorizon(log, h, Some(cursor));
    var r :| h <= r <= |log| && cursor == CursorAt(log, r);
    assert CursorAt(log, n) == CursorAt(log, r);
    SamePosition(log, n, r);
  }

  lemma NothingApplied(log: Log, p: nat)
    requires p <= |log|
    ensures AppliedAll(log[p..p]) == []
  {
  }

  lemma {:induction false} AppliedAllConcat(a: seq<EventId>, b: seq<EventId>)
    ensures AppliedAll(a + b) == AppliedAll(a) + AppliedAll(b)
  {
    if b == [] {
      assert a + b == a;
    } else {
      assert (a + b)[..|a + b| - 1] == a + b[..|b| - 1];
      AppliedAllConcat(a, b[..|b| - 1]);
    }
  }

  lemma AppliedMore(log: Log, p: nat, r: nat, q: nat)
    requires p <= r <= q <= |log|
    ensures AppliedAll(log[p..q]) == AppliedAll(log[p..r]) + AppliedAll(log[r..q])
  {
    assert log[p..q] == log[p..r] + log[r..q];
    AppliedAllConcat(log[p..r], log[r..q]);
  }
}
