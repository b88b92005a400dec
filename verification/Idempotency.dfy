/**
 * The server's table of idempotency records, statement by statement: how a request claims its key, how its outcome is
 * recorded, and how records expire. Requests run concurrently, may crash, and maintenance deletes or marks
 * any of the records that are due.
 */
module Idempotency {
  import opened Options

  /** Principal, method, route and idempotency key together. */
  type Key = nat
  /** The digest of body and precondition. */
  type Fingerprint = nat
  type Response = nat
  /** In seconds. */
  type Time = nat

  const CLAIM: Time := 5 * 60
  const DAY: Time := 24 * 60 * 60

  datatype Record =
    | Pending(fingerprint: Fingerprint, until: Time)
    | Completed(fingerprint: Fingerprint, response: Response, until: Time)
    | Indeterminate(fingerprint: Fingerprint)

  datatype Outcome = Outcome(at: Time, response: Response)

  /** One execution of the operation behind a request: landed once its write committed, done once that is recorded. */
  datatype Execution = Execution(
    key: Key, fingerprint: Fingerprint, begunAt: Time, landed: bool, done: Option<Outcome>)

  /** A request that found its key taken: before the statement that takes expired keys over, or after it. */
  datatype Attempt = Attempt(key: Key, fingerprint: Fingerprint, refused: bool)

  /** begun lists all executions so far, running the ones under way, last the latest one of each key. */
  datatype State = State(
    now: Time, records: map<Key, Record>, attempts: map<nat, Attempt>,
    begun: seq<Execution>, running: set<nat>, last: map<Key, nat>)

  datatype Action =
    | Pass(time: Time)
    | Maintain(dropped: set<Key>, stale: set<Key>)
    | Insert(id: nat, key: Key, fingerprint: Fingerprint)
    | TakeOver(id: nat)
    | Select(id: nat)
    | Land(x: nat)
    | Complete(x: nat, response: Response)
    | Crash(x: nat)

  /** What the request is told that did not get to execute; the row may be gone by then. */
  datatype Claim = Replay(response: Response) | FingerprintMismatch | InProgress | OutcomeUnknown | Vanished

  function ClaimOf(s: State, a: Attempt): Claim {
    if a.key !in s.records then Vanished
    else
      var r := s.records[a.key];
      if r.fingerprint != a.fingerprint then FingerprintMismatch
      else
        match r
        case Pending(_, _) => InProgress
        case Indeterminate(_) => OutcomeUnknown
        case Completed(_, response, _) => Replay(response)
  }

  predicate Expired(s: State, k: Key) {
    k in s.records && s.records[k].Completed? && s.records[k].until <= s.now
  }

  predicate Stale(s: State, k: Key) {
    k in s.records && s.records[k].Pending? && s.records[k].until <= s.now
  }

  predicate Enabled(s: State, a: Action) {
    match a
    case Pass(_) => true
    case Maintain(dropped, stale) =>
      (forall k | k in dropped :: Expired(s, k)) && (forall k | k in stale :: Stale(s, k))
    case Insert(id, _, _) => id !in s.attempts
    case TakeOver(id) => id in s.attempts && !s.attempts[id].refused
    case Select(id) => id in s.attempts && s.attempts[id].refused
    case Land(x) => x in s.running && x < |s.begun|
    case Complete(x, _) => x in s.running && x < |s.begun|
    case Crash(x) => x in s.running
  }

  function Begin(s: State, key: Key, fingerprint: Fingerprint): State {
    s.(records := s.records[key := Pending(fingerprint, s.now + CLAIM)],
       begun := s.begun + [Execution(key, fingerprint, s.now, false, None)],
       running := s.running + {|s.begun|}, last := s.last[key := |s.begun|])
  }

  /** The outcome is recorded only while the claim is alive; after that the request fails although it took effect. */
  function AfterComplete(s: State, x: nat, response: Response): State
    requires x < |s.begun|
  {
    var e, left := s.begun[x], s.(running := s.running - {x});
    if e.key in s.records && s.records[e.key].Pending? && s.records[e.key].fingerprint == e.fingerprint
       && s.records[e.key].until > s.now
    then
      left.(records := s.records[e.key := Completed(e.fingerprint, response, s.now + DAY)],
            begun := s.begun[x := e.(done := Some(Outcome(s.now, response)))])
    else left
  }

  function Maintained(s: State, dropped: set<Key>, stale: set<Key>): State {
    s.(records := map k | k in s.records && k !in dropped ::
                    if k in stale then Indeterminate(s.records[k].fingerprint) else s.records[k])
  }

  function Next(s: State, a: Action): State
    requires Enabled(s, a)
  {
    match a
    case Pass(time) => s.(now := s.now + time)
    case Maintain(dropped, stale) => Maintained(s, dropped, stale)
    case Insert(id, key, fingerprint) =>
      if key !in s.records then Begin(s, key, fingerprint)
      else s.(attempts := s.attempts[id := Attempt(key, fingerprint, false)])
    case TakeOver(id) =>
      var p := s.attempts[id];
      if Expired(s, p.key) then Begin(s.(attempts := s.attempts - {id}), p.key, p.fingerprint)
      else s.(attempts := s.attempts[id := p.(refused := true)])
    case Select(id) => s.(attempts := s.attempts - {id})
    case Land(x) => s.(begun := s.begun[x := s.begun[x].(landed := true)])
    case Complete(x, response) => AfterComplete(s, x, response)
    case Crash(x) => s.(running := s.running - {x})
  }

  predicate Initial(s: State) {
    s.records == map[] && s.attempts == map[] && s.begun == [] && s.running == {} && s.last == map[]
  }

  predicate Runs(s: State, actions: seq<Action>)
    decreases |actions|
  {
    actions != [] ==> Enabled(s, actions[0]) && Runs(Next(s, actions[0]), actions[1..])
  }

  function After(s: State, actions: seq<Action>): State
    requires Runs(s, actions)
    decreases |actions|
  {
    if actions == [] then s else After(Next(s, actions[0]), actions[1..])
  }

  // ---------------------------------------------------------------------------
  // What every step keeps
  // ---------------------------------------------------------------------------

  /** last is the latest execution of each key, and no key has a record without one. */
  ghost predicate Indexed(s: State) {
    && s.records.Keys <= s.last.Keys
    && (forall k | k in s.last :: s.last[k] < |s.begun| && s.begun[s.last[k]].key == k)
    && (forall i | 0 <= i < |s.begun| :: s.begun[i].key in s.last && i <= s.last[s.begun[i].key])
  }

  ghost predicate InThePast(s: State) {
    && (forall x | x in s.running :: x < |s.begun| && s.begun[x].done.None?)
    && forall i | 0 <= i < |s.begun| ::
         s.begun[i].begunAt <= s.now && (s.begun[i].done.Some? ==> s.begun[i].done.value.at <= s.now)
  }

  /** The earlier execution was recorded, and a day has passed since. */
  ghost predicate DayApart(e: Execution, f: Execution) {
    e.done.Some? && e.done.value.at + 86_400 <= f.begunAt
  }

  ghost predicate Spaced(s: State) {
    forall i, j | 0 <= i < j < |s.begun| && s.begun[i].key == s.begun[j].key :: DayApart(s.begun[i], s.begun[j])
  }

  /** The record of a key tells the state of its latest execution; only a recorded one is forgotten, after a day. */
  ghost predicate Tells(s: State, k: Key)
    requires k in s.last && s.last[k] < |s.begun|
  {
    var e := s.begun[s.last[k]];
    if k !in s.records then e.done.Some? && e.done.value.at + DAY <= s.now
    else
      match s.records[k]
      case Pending(fingerprint, until) => e.done.None? && fingerprint == e.fingerprint && until == e.begunAt + CLAIM
      case Indeterminate(fingerprint) =>
        e.done.None? && fingerprint == e.fingerprint && e.begunAt + CLAIM <= s.now
      case Completed(fingerprint, response, until) =>
        fingerprint == e.fingerprint && e.done.Some? && e.done.value.response == response
        && until == e.done.value.at + DAY
  }

  ghost predicate Inv(s: State) {
    Indexed(s) && InThePast(s) && Spaced(s) && forall k | k in s.last :: Tells(s, k)
  }

  lemma SpacedAt(s: State, i: nat, j: nat)
    requires Spaced(s) && i < j < |s.begun| && s.begun[i].key == s.begun[j].key
    ensures DayApart(s.begun[i], s.begun[j])
  {
  }

  /** A key may be executed anew only when its latest execution was recorded a day ago. */
  lemma BeginKeepsInv(s: State, key: Key, fingerprint: Fingerprint)
    requires Inv(s) && (key !in s.records || Expired(s, key))
    ensures Inv(Begin(s, key, fingerprint))
  {
    BeginKeepsSpaced(s, key, fingerprint);
    BeginKeepsTold(s, key, fingerprint);
    hide Spaced, Tells, DayApart, Indexed;
  }

  lemma BeginKeepsTold(s: State, key: Key, fingerprint: Fingerprint)
    requires Inv(s)
    ensures var t := Begin(s, key, fingerprint);
            Indexed(t) && forall k | k in t.last :: Tells(t, k)
  {
    hide Spaced, DayApart, InThePast;
    var t := Begin(s, key, fingerprint);
    forall k | k in t.last ensures Tells(t, k) {
      if k != key {
        StillTells(s, t, k);
      }
    }
    hide Tells;
  }

  /** As long as neither the record of a key nor its latest execution changes. */
  lemma StillTells(s: State, t: State, k: Key)
    requires k in s.last && s.last[k] < |s.begun| && Tells(s, k) && s.now <= t.now
    requires k in t.last && t.last[k] == s.last[k] < |t.begun| && t.begun[t.last[k]] == s.begun[s.last[k]]
    requires (k in t.records <==> k in s.records) && (k in s.records ==> t.records[k] == s.records[k])
    ensures Tells(t, k)
  {
  }

  lemma BeginKeepsSpaced(s: State, key: Key, fingerprint: Fingerprint)
    requires Inv(s) && (key !in s.records || Expired(s, key))
    ensures Spaced(Begin(s, key, fingerprint))
  {
    var t := Begin(s, key, fingerprint);
    forall i, j | 0 <= i < j < |t.begun| && t.begun[i].key == t.begun[j].key ensures DayApart(t.begun[i], t.begun[j]) {
      if j < |s.begun| {
        SpacedAt(s, i, j);
      } else {
        LongAgo(s, key, i);
      }
    }
  }

  lemma LongAgo(s: State, key: Key, i: nat)
    requires Inv(s) && (key !in s.records || Expired(s, key)) && i < |s.begun| && s.begun[i].key == key
    ensures s.begun[i].done.Some? && s.begun[i].done.value.at + DAY <= s.now
  {
    assert Tells(s, key);
    if i < s.last[key] {
      SpacedAt(s, i, s.last[key]);
    }
  }

  /** An execution that is not recorded is the latest of its key. */
  lemma UnrecordedIsLast(s: State, x: nat)
    requires Inv(s) && x < |s.begun| && s.begun[x].done.None?
    ensures s.last[s.begun[x].key] == x
  {
    var k := s.begun[x].key;
    if x < s.last[k] {
      SpacedAt(s, x, s.last[k]);
    }
  }

  lemma CompleteKeepsInv(s: State, x: nat, response: Response)
    requires Inv(s) && x in s.running
    ensures Inv(AfterComplete(s, x, response))
  {
    UnrecordedIsLast(s, x);
    CompleteKeepsSpaced(s, x, response);
    CompleteKeepsTold(s, x, response);
    hide Spaced, Tells, DayApart;
  }

  lemma CompleteKeepsTold(s: State, x: nat, response: Response)
    requires Inv(s) && x in s.running && s.last[s.begun[x].key] == x
    ensures Indexed(AfterComplete(s, x, response))
    ensures forall k | k in s.last :: Tells(AfterComplete(s, x, response), k)
  {
    hide Spaced, DayApart;
    var t := AfterComplete(s, x, response);
    assert s.begun[x].done.None?;
    hide InThePast;
    forall k | k in s.last ensures Tells(t, k) {
      if k == s.begun[x].key {
        assert Tells(s, k);
      } else {
        StillTells(s, t, k);
      }
    }
  }

  lemma CompleteKeepsSpaced(s: State, x: nat, response: Response)
    requires Inv(s) && x in s.running && s.last[s.begun[x].key] == x
    ensures Spaced(AfterComplete(s, x, response))
  {
    var t := AfterComplete(s, x, response);
    forall i, j | 0 <= i < j < |t.begun| && t.begun[i].key == t.begun[j].key ensures DayApart(t.begun[i], t.begun[j]) {
      SpacedAt(s, i, j);
    }
  }

  lemma LandKeepsInv(s: State, x: nat)
    requires Inv(s) && Enabled(s, Land(x))
    ensures Inv(Next(s, Land(x)))
  {
    LandKeepsSpaced(s, x);
    var t := Next(s, Land(x));
    hide Spaced, DayApart;
    forall k | k in t.last ensures Tells(t, k) {
      assert Tells(s, k);
    }
    hide Tells;
  }

  lemma LandKeepsSpaced(s: State, x: nat)
    requires Inv(s) && Enabled(s, Land(x))
    ensures Spaced(Next(s, Land(x)))
  {
    var t := Next(s, Land(x));
    hide Tells;
    forall i, j | 0 <= i < j < |t.begun| && t.begun[i].key == t.begun[j].key ensures DayApart(t.begun[i], t.begun[j]) {
      SpacedAt(s, i, j);
    }
  }

  lemma MaintainKeepsInv(s: State, dropped: set<Key>, stale: set<Key>)
    requires Inv(s) && Enabled(s, Maintain(dropped, stale))
    ensures Inv(Maintained(s, dropped, stale))
  {
    var t := Maintained(s, dropped, stale);
    forall k | k in t.last ensures Tells(t, k) {
      assert Tells(s, k);
    }
  }

  lemma StepKeepsInv(s: State, a: Action)
    requires Inv(s) && Enabled(s, a)
    ensures Inv(Next(s, a))
  {
    match a
    case Pass(time) =>
      forall k | k in s.last ensures Tells(Next(s, a), k) {
        assert Tells(s, k);
      }
    case Maintain(dropped, stale) => MaintainKeepsInv(s, dropped, stale);
    case Insert(id, key, fingerprint) =>
      if key !in s.records {
        BeginKeepsInv(s, key, fingerprint);
      } else {
        SameRecords(s, Next(s, a));
      }
    case TakeOver(id) =>
      SameRecords(s, s.(attempts := s.attempts - {id}));
      if Expired(s, s.attempts[id].key) {
        BeginKeepsInv(s.(attempts := s.attempts - {id}), s.attempts[id].key, s.attempts[id].fingerprint);
      } else {
        SameRecords(s, Next(s, a));
      }
    case Select(id) => SameRecords(s, Next(s, a));
    case Land(x) => LandKeepsInv(s, x);
    case Complete(x, response) => CompleteKeepsInv(s, x, response);
    case Crash(x) => SameRecords(s, Next(s, a));
  }

  lemma SameRecords(s: State, t: State)
    requires Inv(s) && t == s.(attempts := t.attempts, running := t.running) && t.running <= s.running
    ensures Inv(t)
  {
    forall k | k in s.last ensures Tells(t, k) {
      assert Tells(s, k);
    }
  }

  lemma {:induction false} RunKeepsInv(s: State, actions: seq<Action>)
    requires Inv(s) && Runs(s, actions)
    ensures Inv(After(s, actions))
    decreases |actions|
  {
    if actions != [] {
      StepKeepsInv(s, actions[0]);
      hide Inv, Next, Enabled;
      RunKeepsInv(Next(s, actions[0]), actions[1..]);
    }
  }

  // ---------------------------------------------------------------------------
  // What a client may rely on
  // ---------------------------------------------------------------------------

  /** Two executions of one key: the first was recorded, and the second began at least a day after that. */
  lemma ExecutionsAreADayApart(s: State, actions: seq<Action>, i: nat, j: nat)
    requires Initial(s) && Runs(s, actions)
    requires var t := After(s, actions); i < j < |t.begun| && t.begun[i].key == t.begun[j].key
    ensures DayApart(After(s, actions).begun[i], After(s, actions).begun[j])
  {
    RunKeepsInv(s, actions);
  }

  /** Never are two executions of one key under way, not even when the claim of the first ran out. */
  lemma OneAtATime(s: State, actions: seq<Action>, x: nat, y: nat)
    requires Initial(s) && Runs(s, actions)
    requires var t := After(s, actions);
             x in t.running && y in t.running && x < |t.begun| && y < |t.begun| && t.begun[x].key == t.begun[y].key
    ensures x == y
  {
    RunKeepsInv(s, actions);
    UnrecordedIsLast(After(s, actions), x);
    UnrecordedIsLast(After(s, actions), y);
  }

  /** A replayed answer is that of the latest execution of the key, which was one of the same request. */
  lemma ReplayIsTrue(s: State, actions: seq<Action>, a: Attempt)
    requires Initial(s) && Runs(s, actions) && ClaimOf(After(s, actions), a).Replay?
    ensures var t := After(s, actions);
            && a.key in t.last && t.last[a.key] < |t.begun|
            && var e := t.begun[t.last[a.key]];
               && e.key == a.key && e.fingerprint == a.fingerprint && e.done.Some?
               && e.done.value.response == ClaimOf(t, a).response
  {
    RunKeepsInv(s, actions);
    assert Tells(After(s, actions), a.key);
  }

  /** The outcome of this execution is on record and less than a day old. */
  ghost predicate Remembered(s: State, x: nat, outcome: Outcome) {
    && x < |s.begun| && s.begun[x].done == Some(outcome) && x !in s.running
    && s.last[s.begun[x].key := x] == s.last
    && s.begun[x].key in s.records
    && s.records[s.begun[x].key] == Completed(s.begun[x].fingerprint, outcome.response, outcome.at + DAY)
  }

  lemma StepKeepsRemembered(s: State, a: Action, x: nat, outcome: Outcome)
    requires Inv(s) && Enabled(s, a) && Remembered(s, x, outcome) && s.now < outcome.at + DAY
    ensures Remembered(Next(s, a), x, outcome) && Next(s, a).begun[x] == s.begun[x]
  {
    if a.Complete? {
      UnrecordedIsLast(s, a.x);
    }
  }

  /**
   * An execution that finishes within its claim is recorded, and for a day every request under its key is told its
   * answer, or that the key was used for another request.
   */
  lemma {:induction false} RecordedIsReplayed(s: State, actions: seq<Action>, x: nat, outcome: Outcome)
    requires Inv(s) && Runs(s, actions) && Remembered(s, x, outcome) && After(s, actions).now < outcome.at + DAY
    ensures var t := After(s, actions);
            forall a: Attempt | a.key == s.begun[x].key ::
              ClaimOf(t, a) == if a.fingerprint == s.begun[x].fingerprint then Replay(outcome.response)
                               else FingerprintMismatch
    decreases |actions|
  {
    if actions != [] {
      TimePasses(Next(s, actions[0]), actions[1..]);
      StepKeepsRemembered(s, actions[0], x, outcome);
      StepKeepsInv(s, actions[0]);
      hide Inv, Enabled, Remembered, ClaimOf, Next;
      RecordedIsReplayed(Next(s, actions[0]), actions[1..], x, outcome);
    }
  }

  lemma {:induction false} TimePasses(s: State, actions: seq<Action>)
    requires Runs(s, actions)
    ensures s.now <= After(s, actions).now
    decreases |actions|
  {
    if actions != [] {
      TimePasses(Next(s, actions[0]), actions[1..]);
    }
  }

  /** Finishing within five minutes puts the answer on record; finishing later leaves the outcome unknown. */
  lemma CompletionIsRecordedIff(s: State, x: nat, response: Response)
    requires Inv(s) && x in s.running
    ensures x < |s.begun|
    ensures var t := Next(s, Complete(x, response));
            if s.now < s.begun[x].begunAt + 300 then Remembered(t, x, Outcome(s.now, response)) else LeftOpen(t, x)
  {
    UnrecordedIsLast(s, x);
    assert Tells(s, s.begun[x].key);
  }

  /** A request gets to execute exactly if its key has no record, or one whose outcome was recorded a day ago. */
  lemma ExecutesIff(s: State, a: Action)
    requires Inv(s) && Enabled(s, a) && (a.Insert? || a.TakeOver?)
    ensures var key := if a.Insert? then a.key else s.attempts[a.id].key;
            var fingerprint := if a.Insert? then a.fingerprint else s.attempts[a.id].fingerprint;
            var executes := if a.Insert? then key !in s.records else key in s.records && DayOld(s, key);
            Next(s, a).begun == s.begun + if executes then [Execution(key, fingerprint, s.now, false, None)] else []
  {
    var key := if a.Insert? then a.key else s.attempts[a.id].key;
    if key in s.records {
      assert Tells(s, key);
    }
  }

  ghost predicate DayOld(s: State, key: Key) {
    key in s.last && s.last[key] < |s.begun|
    && var e := s.begun[s.last[key]]; e.done.Some? && e.done.value.at + 86_400 <= s.now
  }

  /** Maintenance forgets what is a day old and declares outcomes unknown whose claim has run out, and nothing else. */
  lemma MaintenanceIs(s: State, dropped: set<Key>, stale: set<Key>, k: Key)
    requires Inv(s) && Enabled(s, Maintain(dropped, stale))
    ensures k in dropped ==> DayOld(s, k) && k !in Maintained(s, dropped, stale).records
    ensures k in stale ==>
              && k in s.last && s.begun[s.last[k]].done.None? && s.begun[s.last[k]].begunAt + 300 <= s.now
              && k in Maintained(s, dropped, stale).records && Maintained(s, dropped, stale).records[k].Indeterminate?
    ensures k !in dropped + stale ==>
              && (k in Maintained(s, dropped, stale).records <==> k in s.records)
              && (k in s.records ==> Maintained(s, dropped, stale).records[k] == s.records[k])
  {
    if k in s.records {
      assert Tells(s, k);
    }
  }

  /** A key used for another request is reported as long as its record is there, whatever became of that request. */
  lemma MismatchIff(s: State, actions: seq<Action>, a: Attempt)
    requires Initial(s) && Runs(s, actions) && a.key in After(s, actions).records
    ensures var t := After(s, actions);
            && a.key in t.last && t.last[a.key] < |t.begun|
            && (ClaimOf(t, a).FingerprintMismatch? <==> t.begun[t.last[a.key]].fingerprint != a.fingerprint)
  {
    RunKeepsInv(s, actions);
    assert Tells(After(s, actions), a.key);
  }

  /** The execution ended without its outcome being recorded: it crashed, or finished after its claim ran out. */
  ghost predicate LeftOpen(s: State, x: nat) {
    x < |s.begun| && s.begun[x].done.None? && x !in s.running
  }

  lemma LeftOpenStays(s: State, a: Action, x: nat)
    requires Inv(s) && Enabled(s, a) && LeftOpen(s, x)
    ensures LeftOpen(Next(s, a), x) && Next(s, a).begun[x] == s.begun[x]
  {
  }

  /** Such a key is never executed again: every later request of it is told so. */
  lemma {:induction false} OpenOutcomeBlocks(s: State, actions: seq<Action>, x: nat)
    requires Inv(s) && Runs(s, actions) && LeftOpen(s, x)
    ensures var t := After(s, actions);
            && LeftOpen(t, x) && t.begun[x] == s.begun[x]
            && (forall j | x < j < |t.begun| :: t.begun[j].key != t.begun[x].key)
            && forall a: Attempt | a.key == t.begun[x].key ::
                 a.key in t.records
                 && ClaimOf(t, a) == if a.fingerprint != t.begun[x].fingerprint then FingerprintMismatch
                                     else if t.records[a.key].Pending? then InProgress else OutcomeUnknown
    decreases |actions|
  {
    if actions == [] {
      UnrecordedIsLast(s, x);
      assert Tells(s, s.begun[x].key);
    } else {
      StepKeepsInv(s, actions[0]);
      LeftOpenStays(s, actions[0], x);
      hide Inv, Next, Enabled, LeftOpen, ClaimOf;
      OpenOutcomeBlocks(Next(s, actions[0]), actions[1..], x);
    }
  }

  /** Nothing began or was recorded before start. */
  predicate Since(s: State, start: Time) {
    && start <= s.now
    && forall i | 0 <= i < |s.begun| ::
         start <= s.begun[i].begunAt && (s.begun[i].done.Some? ==> start <= s.begun[i].done.value.at)
  }

  lemma StepKeepsSince(s: State, a: Action, start: Time)
    requires Enabled(s, a) && Since(s, start)
    ensures Since(Next(s, a), start)
  {
  }

  lemma {:induction false} RunKeepsSince(s: State, actions: seq<Action>, start: Time)
    requires Runs(s, actions) && Since(s, start)
    ensures Since(After(s, actions), start)
    decreases |actions|
  {
    if actions != [] {
      StepKeepsSince(s, actions[0], start);
      RunKeepsSince(Next(s, actions[0]), actions[1..], start);
    }
  }

  /** In a run shorter than a day no key is executed twice: the table is a memory that never forgets. */
  lemma NothingForgottenWithinADay(s: State, actions: seq<Action>, i: nat, j: nat)
    requires Initial(s) && Runs(s, actions) && After(s, actions).now < s.now + DAY
    requires var t := After(s, actions); i < |t.begun| && j < |t.begun| && t.begun[i].key == t.begun[j].key
    ensures i == j
  {
    RunKeepsInv(s, actions);
    RunKeepsSince(s, actions, s.now);
    var t := After(s, actions);
    if i < j {
      SpacedAt(t, i, j);
    } else if j < i {
      SpacedAt(t, j, i);
    }
  }

  // ---------------------------------------------------------------------------
  // A new key after an unknown outcome
  // ---------------------------------------------------------------------------

  ghost predicate Landed(s: State, k: Key) {
    exists i :: 0 <= i < |s.begun| && s.begun[i].key == k && s.begun[i].landed
  }

  /** The key never landed and can never land any more. */
  ghost predicate Closed(s: State, k: Key) {
    k in s.last && LeftOpen(s, s.last[k]) && !Landed(s, k)
  }

  lemma StepKeepsClosed(s: State, a: Action, k: Key)
    requires Inv(s) && Enabled(s, a) && Closed(s, k)
    ensures Closed(Next(s, a), k)
  {
    var x, t := s.last[k], Next(s, a);
    assert Tells(s, k);
    LeftOpenStays(s, a, x);
    forall i | 0 <= i < |t.begun| && t.begun[i].key == k ensures i < |s.begun| && t.begun[i] == s.begun[i] {
      if i < x {
        SpacedAt(s, i, x);
      }
    }
  }

  lemma {:induction false} RunKeepsClosed(s: State, actions: seq<Action>, k: Key)
    requires Inv(s) && Runs(s, actions) && Closed(s, k)
    ensures Closed(After(s, actions), k)
    decreases |actions|
  {
    if actions != [] {
      StepKeepsClosed(s, actions[0], k);
      StepKeepsInv(s, actions[0]);
      hide Inv, Next, Enabled, Closed;
      RunKeepsClosed(Next(s, actions[0]), actions[1..], k);
    }
  }

  lemma LandsNow(s: State, x: nat)
    requires x in s.running && x < |s.begun|
    ensures Enabled(s, Land(x)) && Landed(Next(s, Land(x)), s.begun[x].key)
    ensures Next(s, Land(x)) == s.(begun := s.begun[x := s.begun[x].(landed := true)])
  {
    var t := Next(s, Land(x));
    assert t.begun[x].key == s.begun[x].key && t.begun[x].landed;
  }

  /** A request under an unused key gets to execute and lands; what landed before stays. */
  lemma NewKeyLands(s: State, id: nat, unused: Key, fingerprint: Fingerprint, k: Key) returns (actions: seq<Action>)
    requires id !in s.attempts && unused !in s.records && Landed(s, k)
    ensures Runs(s, actions) && Landed(After(s, actions), k) && Landed(After(s, actions), unused)
  {
    var x, insert := |s.begun|, Insert(id, unused, fingerprint);
    var t := Next(s, insert);
    LandsNow(t, x);
    var i :| 0 <= i < |s.begun| && s.begun[i].key == k && s.begun[i].landed;
    var u := Next(t, Land(x));
    assert u.begun[i] == s.begun[i];
    actions := [insert, Land(x)];
    assert actions[1..] == [Land(x)] && [Land(x)][1..] == [];
    assert Runs(u, []) && After(u, []) == u;
    assert Enabled(t, [Land(x)][0]) && Runs(t, [Land(x)]) && After(t, [Land(x)]) == u;
  }

  lemma RunningLandsFirst(s: State, id: nat, unused: Key, fingerprint: Fingerprint, x: nat)
    returns (actions: seq<Action>)
    requires x in s.running && x < |s.begun| && id !in s.attempts && unused !in s.records
    ensures Runs(s, actions) && Landed(After(s, actions), s.begun[x].key) && Landed(After(s, actions), unused)
  {
    LandsNow(s, x);
    var more := NewKeyLands(Next(s, Land(x)), id, unused, fingerprint, s.begun[x].key);
    hide Landed, Next, Enabled;
    actions := [Land(x)] + more;
    assert actions[1..] == more;
  }

  /** Neither run lands the command under both keys. */
  ghost predicate NeverBoth(s: State, k: Key, unused: Key) {
    forall actions | Runs(s, actions) :: !(Landed(After(s, actions), k) && Landed(After(s, actions), unused))
  }

  /**
   * A client told that the outcome is unknown that sends the same command again under an unused key: no run
   * carries it out twice if and only if the first request has not landed and is not under way any more.
   */
  lemma NewKeyAfterUnknownIsSafeIff(s: State, a: Attempt, id: nat, unused: Key)
    requires Inv(s) && ClaimOf(s, a).OutcomeUnknown? && id !in s.attempts && unused !in s.last
    ensures a.key in s.last
    ensures NeverBoth(s, a.key, unused) <==> !Landed(s, a.key) && s.last[a.key] !in s.running
  {
    var k, x := a.key, s.last[a.key];
    assert Tells(s, k);
    if Landed(s, k) {
      var actions := NewKeyLands(s, id, unused, 0, k);
      hide Landed, Runs;
      assert !NeverBoth(s, k, unused);
    } else if x in s.running {
      var actions := RunningLandsFirst(s, id, unused, 0, x);
      hide Landed, Runs;
      assert !NeverBoth(s, k, unused);
    } else {
      assert Closed(s, k);
      hide Landed, Inv;
      forall actions | Runs(s, actions) ensures !Landed(After(s, actions), k) {
        RunKeepsClosed(s, actions, k);
      }
    }
  }
}
