/**
 * A reachable breach with one drainer: a favourite toggle is applied but its response is lost, a toggle of
 * the same item dated earlier is enqueued and acknowledged, and the first toggle is put under a new key.
 */
module LateCommand {
  import opened Options
  import opened Commands
  import opened Protocol
  import opened ProtocolSafety
  import opened Delivery
  import opened ExactlyOnce
  import opened KeyChange
  import opened Scenes

  const ONE_DRAINER: Rules := Rules({0}, false)

  const FIRST: Command := Command1(ToggleFavorite, 2, 7, 10)
  const LATE: Command := Command1(ToggleFavorite, 1, 8, 5)
  const RETRIED: Command := MarkRetrying(FIRST, 0, LOST, 90)

  const QUEUED: Scene :=
    Scene(map[2 := FIRST], map[0 := Engine(map[2 := FIRST], None)], NOTHING.server, {},
          map[2 := Minted(2, RequestOf(FIRST))], map[2 := 0], 1, {})

  const ANSWER_LOST: Scene :=
    QUEUED.(q := map[2 := RETRIED], engines := map[0 := Engine(map[2 := RETRIED], None)],
            server := Server(map[ITEM := 8], map[2 := Answer(RequestOf(FIRST), Applied(8))]),
            net := {RequestOf(FIRST)})

  /** The first toggle was applied; its engine only knows that no answer came. */
  lemma AnswerLost() returns (c: Course)
    ensures Reaches(ONE_DRAINER, c, ANSWER_LOST)
  {
    hide Reaches;
    c := Begins(ONE_DRAINER);
    var s := NOTHING.(engines := map[0 := Engine(map[], None)]);
    c := AndRestarted(ONE_DRAINER, c, NOTHING, 0, s);
    c := AndEnqueued(ONE_DRAINER, c, s, 0, FIRST, QUEUED);
    s := AfterSending(QUEUED, 0, 2);
    c := AndSent(ONE_DRAINER, c, QUEUED, 0, 2, s);
    var t := s.(server := ANSWER_LOST.server);
    c := AndServed(ONE_DRAINER, c, s, RequestOf(FIRST), t);
    c := AndGivenUp(ONE_DRAINER, c, t, 0, FIRST, ANSWER_LOST);
  }

  const BOTH: map<Id, Command> := map[2 := RETRIED, 1 := LATE]

  const LATE_QUEUED: Scene :=
    ANSWER_LOST.(q := BOTH, engines := map[0 := Engine(BOTH, None)],
                 minted := map[2 := Minted(2, RequestOf(FIRST)), 1 := Minted(1, RequestOf(LATE))],
                 rank := map[2 := 0, 1 := 1], next := 2)

  const LATE_APPLIED: Scene :=
    LATE_QUEUED.(engines := map[0 := Engine(BOTH, Some(LATE))], net := {RequestOf(FIRST), RequestOf(LATE)},
                 server := Server(map[ITEM := 9],
                                  map[2 := Answer(RequestOf(FIRST), Applied(8)),
                                      1 := Answer(RequestOf(LATE), Applied(9))]))

  /** The late toggle was sent and applied. */
  lemma LateApplied() returns (c: Course)
    ensures Reaches(ONE_DRAINER, c, LATE_APPLIED)
  {
    hide Reaches;
    c := AnswerLost();
    c := AndEnqueued(ONE_DRAINER, c, ANSWER_LOST, 0, LATE, LATE_QUEUED);
    var s := AfterSending(LATE_QUEUED, 0, 1);
    c := AndSent(ONE_DRAINER, c, LATE_QUEUED, 0, 1, s);
    c := AndServed(ONE_DRAINER, c, s, RequestOf(LATE), LATE_APPLIED);
  }

  const REKEYING: Action := Ack(0, true, Some(2), 3, 91)

  /** Acknowledging the late toggle puts the live key of the first one aside. */
  lemma LateReKeys(v: World)
    requires Shows(v, LATE_APPLIED)
    ensures ReKeys(v, REKEYING) && !Dead(v, Key(v.stored[2]))
  {
    LateAckIsEnabled(v);
  }

  lemma LateAckIsEnabled(v: World)
    requires Shows(v, LATE_APPLIED)
    ensures Enabled(v, REKEYING) && ChainedCopy(v, REKEYING) == RebaseChained(RETRIED, 9, 3, 91)
  {
    var rest := v.stored - {1};
    assert rest == map[2 := RETRIED];
    assert IsFirstActive(v.rank, rest, ITEM, Some(2));
  }

  /** Time order of the commands is needed: without it one drainer makes a command take effect twice. */
  lemma LateTimestampBreaksAtMostOnce()
    ensures exists actions, op ::
              Initial(START) && Runs(START, actions) && (forall a | a in actions :: SoleDrainer(a, 0))
              && Twice(After(START, actions), op)
  {
    var c := LateApplied();
    var all := LateGoesTwice(c);
  }

  lemma LateGoesTwice(c: Course) returns (all: seq<Action>)
    requires Reaches(ONE_DRAINER, c, LATE_APPLIED)
    ensures Runs(START, all) && (forall a | a in all :: SoleDrainer(a, 0)) && Twice(After(START, all), 2)
  {
    hide Enabled, Next, ReKeys, Twice, Dead;
    LateFacts(c);
    var more := LateMischief(c.world);
    SoleDrainerThroughout(Next(c.world, REKEYING), more, 0);
    all := Continued(c, REKEYING, more);
  }

  lemma LateFacts(c: Course)
    requires Reaches(ONE_DRAINER, c, LATE_APPLIED)
    ensures Initial(START) && Inv(c.world) && Enabled(c.world, REKEYING) && ReKeys(c.world, REKEYING)
    ensures 2 in c.world.stored && !Dead(c.world, Key(c.world.stored[2]))
    ensures Runs(START, c.actions) && After(START, c.actions) == c.world
    ensures forall a | a in c.actions :: SoleDrainer(a, 0)
  {
    LateReKeys(c.world);
    StartKeepsInv(c);
  }

  lemma StartKeepsInv(c: Course)
    requires Runs(START, c.actions) && After(START, c.actions) == c.world
    ensures Initial(START) && Inv(c.world)
  {
    InitialInv(START);
    RunKeepsInv(START, c.actions);
  }

  lemma LateMischief(v: World) returns (more: seq<Action>)
    requires Inv(v) && ReKeys(v, REKEYING) && !Dead(v, Key(v.stored[2]))
    ensures Runs(Next(v, REKEYING), more) && DisciplinedRun(Next(v, REKEYING), more, 0)
    ensures Twice(After(Next(v, REKEYING), more), 2)
  {
    LiveKeyTakesEffectTwice(v, REKEYING, 0);
    more :| Runs(Next(v, REKEYING), more) && DisciplinedRun(Next(v, REKEYING), more, 0)
            && Twice(After(Next(v, REKEYING), more), 2);
  }

  /** A run, one more action, and a run from there. */
  lemma Continued(c: Course, a: Action, more: seq<Action>) returns (all: seq<Action>)
    requires Runs(START, c.actions) && After(START, c.actions) == c.world
    requires Enabled(c.world, a) && Runs(Next(c.world, a), more)
    ensures Runs(START, all) && After(START, all) == After(Next(c.world, a), more)
    ensures forall b | b in all :: b in c.actions || b == a || b in more
  {
    assert ([a] + more)[1..] == more;
    assert Runs(c.world, [a] + more);
    RunsConcat(START, c.actions, [a] + more);
    all := c.actions + ([a] + more);
  }

  lemma {:induction false} SoleDrainerThroughout(w: World, actions: seq<Action>, d: nat)
    requires Runs(w, actions) && DisciplinedRun(w, actions, d)
    ensures forall a | a in actions :: SoleDrainer(a, d)
    decreases |actions|
  {
    if actions != [] {
      SoleDrainerThroughout(Next(w, actions[0]), actions[1..], d);
    }
  }
}
