/**
 * What a second drainer can do, without any lost message and with commands in time order. Both engines
 * send the first of three commands of one item. One acknowledges it and works on; the other acknowledges
 * it late, when the third command is already on its way, and moves that one back.
 */
module TwoDrainers {
  import opened Options
  import opened Commands
  import opened Protocol
  import opened ProtocolSafety
  import opened Delivery
  import opened ExactlyOnce
  import opened KeyChange
  import opened EnqueueOrder
  import opened Scenes
  import opened LateCommand
  import opened SealedConflicts

  /** Two engines that drain; one of them is late. */
  datatype Pair = Pair(late: nat, fast: nat)

  type Drainers = p: Pair | p.late != p.fast witness Pair(0, 1)

  function Both(p: Drainers): Rules {
    Rules({p.late, p.fast}, true)
  }

  const ONE: Command := Command1(ToggleFavorite, 1, 7, 1)
  const TWO: Command := Command1(ToggleFavorite, 2, 7, 2)
  /** The second command once it follows the first. */
  const TWO_MOVED: Command :=
    TWO.(baseVersion := 8, attemptId := Some(4), status := Some(Pending), nextAttemptAt := None)

  /** The third command, enqueued against the revision the second will reach. */
  function Three(kind: Kind): Command {
    Command1(kind, 3, 9, 3)
  }

  predicate Third(kind: Kind) {
    kind in {ToggleFavorite, Update}
  }

  function Queue3(kind: Kind): map<Id, Command> {
    map[1 := ONE, 2 := TWO, 3 := Three(kind)]
  }

  function Minted3(kind: Kind): map<Id, Minted> {
    map[1 := Minted(1, RequestOf(ONE)), 2 := Minted(2, RequestOf(TWO)), 3 := Minted(3, RequestOf(Three(kind)))]
  }

  /** All three are queued and both engines have them. */
  function Queued(p: Drainers, kind: Kind): Scene {
    Scene(Queue3(kind), map[p.late := Engine(Queue3(kind), None), p.fast := Engine(Queue3(kind), None)],
          NOTHING.server, {}, Minted3(kind), map[1 := 0, 2 := 1, 3 := 2], 3, {})
  }

  lemma BothHaveThem(p: Drainers, kind: Kind) returns (c: Course)
    requires Third(kind)
    ensures Reaches(Both(p), c, Queued(p, kind))
  {
    hide Reaches;
    c := Begins(Both(p));
    var s := NOTHING.(engines := map[p.late := Engine(map[], None)]);
    c := AndRestarted(Both(p), c, NOTHING, p.late, s);
    var t := AfterEnqueueing(s, p.late, ONE);
    c := AndEnqueued(Both(p), c, s, p.late, ONE, t);
    var u := AfterEnqueueing(t, p.late, TWO);
    c := AndEnqueued(Both(p), c, t, p.late, TWO, u);
    var v := AfterEnqueueing(u, p.late, Three(kind));
    c := AndEnqueued(Both(p), c, u, p.late, Three(kind), v);
    assert v == Queued(p, kind).(engines := map[p.late := Engine(Queue3(kind), None)]);
    c := AndRestarted(Both(p), c, v, p.fast, Queued(p, kind));
  }

  /** Both engines have sent the first command, and it was applied once. */
  function FirstApplied(p: Drainers, kind: Kind): Scene {
    Queued(p, kind).(
      engines := map[p.late := Engine(Queue3(kind), Some(ONE)), p.fast := Engine(Queue3(kind), Some(ONE))],
      server := Server(map[ITEM := 8], map[1 := Answer(RequestOf(ONE), Applied(8))]), net := {RequestOf(ONE)})
  }

  lemma FirstIsApplied(p: Drainers, kind: Kind, c0: Course) returns (c: Course)
    requires Third(kind) && Reaches(Both(p), c0, Queued(p, kind))
    ensures Reaches(Both(p), c, FirstApplied(p, kind))
  {
    hide Reaches;
    var s, t := Queued(p, kind), AfterSending(Queued(p, kind), p.late, 1);
    c := AndSent(Both(p), c0, s, p.late, 1, t);
    var u := AfterSending(t, p.fast, 1);
    c := AndSent(Both(p), c, t, p.fast, 1, u);
    c := AndServed(Both(p), c, u, RequestOf(ONE), FirstApplied(p, kind));
  }

  function Queue2(kind: Kind): map<Id, Command> {
    map[2 := TWO_MOVED, 3 := Three(kind)]
  }

  /** The fast engine has acknowledged the first command. */
  function FirstAcknowledged(p: Drainers, kind: Kind): Scene {
    FirstApplied(p, kind).(
      q := Queue2(kind),
      engines := map[p.late := Engine(Queue3(kind), Some(ONE)), p.fast := Engine(Queue2(kind), None)],
      minted := Minted3(kind)[4 := Minted(2, RequestOf(TWO_MOVED))], acked := {1})
  }

  lemma FirstAcknowledges(p: Drainers, kind: Kind)
    requires Third(kind)
    ensures Acknowledges(FirstApplied(p, kind), p.fast, 8, Some(2), 4)
    ensures AfterAcknowledging(FirstApplied(p, kind), p.fast, 8, Some(2), 4) == FirstAcknowledged(p, kind)
  {
    var s := FirstApplied(p, kind);
    var rest := s.q - {1};
    assert rest == map[2 := TWO, 3 := Three(kind)];
    assert IsFirstActive(s.rank, rest, ITEM, Some(2));
    assert RebaseChained(TWO, 8, 4, 4) == TWO_MOVED;
    assert rest[2 := TWO_MOVED] == Queue2(kind);
  }

  lemma FirstIsAcknowledged(p: Drainers, kind: Kind, c0: Course) returns (c: Course)
    requires Third(kind) && Reaches(Both(p), c0, FirstApplied(p, kind))
    ensures Reaches(Both(p), c, FirstAcknowledged(p, kind))
  {
    hide Reaches, Acknowledges, AfterAcknowledging, FirstAcknowledged;
    FirstAcknowledges(p, kind);
    c := AndAcknowledged(Both(p), c0, FirstApplied(p, kind), p.fast, 8, Some(2), 4, FirstAcknowledged(p, kind));
  }

  function SecondApplied(p: Drainers, kind: Kind): Scene {
    FirstAcknowledged(p, kind).(
      engines := map[p.late := Engine(Queue3(kind), Some(ONE)), p.fast := Engine(Queue2(kind), Some(TWO_MOVED))],
      server := Server(map[ITEM := 9],
                       map[1 := Answer(RequestOf(ONE), Applied(8)), 4 := Answer(RequestOf(TWO_MOVED), Applied(9))]),
      net := {RequestOf(ONE), RequestOf(TWO_MOVED)})
  }

  function SecondSent(p: Drainers, kind: Kind): Scene {
    FirstAcknowledged(p, kind).(
      engines := map[p.late := Engine(Queue3(kind), Some(ONE)), p.fast := Engine(Queue2(kind), Some(TWO_MOVED))],
      net := {RequestOf(ONE), RequestOf(TWO_MOVED)})
  }

  lemma SecondIsPicked(p: Drainers, kind: Kind)
    requires Third(kind)
    ensures Picks(FirstAcknowledged(p, kind), p.fast, 2)
    ensures AfterSending(FirstAcknowledged(p, kind), p.fast, 2) == SecondSent(p, kind)
  {
    hide RequestOf;
  }

  lemma SecondIsServed(p: Drainers, kind: Kind)
    ensures SecondSent(p, kind).(server := Handle(SecondSent(p, kind).server, RequestOf(TWO_MOVED), true))
         == SecondApplied(p, kind)
  {
    assert Decide(map[ITEM := 8], RequestOf(TWO_MOVED), true) == Applied(9);
  }

  lemma SecondIsApplied(p: Drainers, kind: Kind, c0: Course) returns (c: Course)
    requires Third(kind) && Reaches(Both(p), c0, FirstAcknowledged(p, kind))
    ensures Reaches(Both(p), c, SecondApplied(p, kind))
  {
    SecondIsPicked(p, kind);
    hide Reaches, Picks, AfterSending, FirstAcknowledged, SecondApplied, Handle;
    c := AndSent(Both(p), c0, FirstAcknowledged(p, kind), p.fast, 2, SecondSent(p, kind));
    SecondIsServed(p, kind);
    c := AndServed(Both(p), c, SecondSent(p, kind), RequestOf(TWO_MOVED), SecondApplied(p, kind));
  }

  /** The fast engine has acknowledged the second command, which keeps the third where it is, and sent the third. */
  function ThirdSent(p: Drainers, kind: Kind): Scene {
    var q := map[3 := Three(kind)];
    SecondApplied(p, kind).(
      q := q, engines := map[p.late := Engine(Queue3(kind), Some(ONE)), p.fast := Engine(q, Some(Three(kind)))],
      net := {RequestOf(ONE), RequestOf(TWO_MOVED), RequestOf(Three(kind))}, acked := {1, 2})
  }

  function SecondAcknowledged(p: Drainers, kind: Kind): Scene {
    var q := map[3 := Three(kind)];
    SecondApplied(p, kind).(
      q := q, engines := map[p.late := Engine(Queue3(kind), Some(ONE)), p.fast := Engine(q, None)], acked := {1, 2})
  }

  lemma ThirdStays(kind: Kind)
    ensures RebaseChained(Three(kind), 9, 5, 5) == Three(kind)
  {
  }

  lemma SecondIsAnswered(p: Drainers, kind: Kind)
    requires Third(kind)
    ensures Acknowledges(SecondApplied(p, kind), p.fast, 9, Some(3), 5)
  {
    hide RequestOf;
    var s, q := SecondApplied(p, kind), map[3 := Three(kind)];
    assert s.q - {2} == q;
    assert IsFirstActive(s.rank, q, ITEM, Some(3));
  }

  /** The third command already names the revision reached, so it stays as it is. */
  lemma SecondLeavesThird(p: Drainers, kind: Kind)
    requires Third(kind)
    ensures AfterAcknowledging(SecondApplied(p, kind), p.fast, 9, Some(3), 5) == SecondAcknowledged(p, kind)
  {
    hide RequestOf, RebaseChained;
    ThirdStays(kind);
    var s, q := SecondApplied(p, kind), map[3 := Three(kind)];
    assert s.q - {2} == q && q[3 := Three(kind)] == q;
    assert s.minted[3 := Minted(3, RequestOf(Three(kind)))] == s.minted;
  }

  lemma ThirdIsPicked(p: Drainers, kind: Kind)
    requires Third(kind)
    ensures Picks(SecondAcknowledged(p, kind), p.fast, 3)
    ensures AfterSending(SecondAcknowledged(p, kind), p.fast, 3) == ThirdSent(p, kind)
  {
    hide RequestOf;
  }

  lemma ThirdIsSent(p: Drainers, kind: Kind, c0: Course) returns (c: Course)
    requires Third(kind) && Reaches(Both(p), c0, SecondApplied(p, kind))
    ensures Reaches(Both(p), c, ThirdSent(p, kind))
  {
    hide Reaches, Picks, AfterSending, Acknowledges, AfterAcknowledging, SecondAcknowledged, ThirdSent;
    SecondIsAnswered(p, kind);
    SecondLeavesThird(p, kind);
    c := AndAcknowledged(Both(p), c0, SecondApplied(p, kind), p.fast, 9, Some(3), 5, SecondAcknowledged(p, kind));
    ThirdIsPicked(p, kind);
    c := AndSent(Both(p), c, SecondAcknowledged(p, kind), p.fast, 3, ThirdSent(p, kind));
  }

  /** The state is reachable: two drainers, time order, no message lost. */
  lemma ThirdSentIsReachable(p: Drainers, kind: Kind) returns (c: Course)
    requires Third(kind)
    ensures Reaches(Both(p), c, ThirdSent(p, kind))
  {
    c := BothHaveThem(p, kind);
    c := FirstIsApplied(p, kind, c);
    c := FirstIsAcknowledged(p, kind, c);
    c := SecondIsApplied(p, kind, c);
    c := ThirdIsSent(p, kind, c);
  }

  /** The late engine acknowledges the first command. */
  function LateAck(p: Drainers): Action {
    Ack(p.late, true, Some(3), 6, 6)
  }

  lemma LateAckCanCome(p: Drainers, v: World, kind: Kind)
    requires Third(kind) && Shows(v, ThirdSent(p, kind))
    ensures Enabled(v, LateAck(p)) && v.engines[p.late].inflight == Some(ONE)
    ensures ChainedCopy(v, LateAck(p)) == RebaseChained(Three(kind), 8, 6, 6)
  {
    assert v.stored - {1} == v.stored;
    assert IsFirstActive(v.rank, v.stored - {1}, ITEM, Some(3));
  }

  // ---------------------------------------------------------------------------
  // What goes wrong
  // ---------------------------------------------------------------------------

  /** A third command without ciphertext is put under a new key while its request is on the way. */
  lemma ToggleIsReKeyed(p: Drainers, v: World)
    requires Shows(v, ThirdSent(p, ToggleFavorite))
    ensures ReKeys(v, LateAck(p)) && !Dead(v, Key(v.stored[3]))
  {
    LateAckCanCome(p, v, ToggleFavorite);
  }

  lemma ToggleMischief(p: Drainers, v: World) returns (more: seq<Action>)
    requires Inv(v) && ReKeys(v, LateAck(p)) && !Dead(v, Key(v.stored[3]))
    ensures Runs(Next(v, LateAck(p)), more) && Twice(After(Next(v, LateAck(p)), more), 3)
    ensures OnlySends(more, {p.late})
  {
    LiveKeyTakesEffectTwice(v, LateAck(p), p.late);
    more :| Runs(Next(v, LateAck(p)), more) && DisciplinedRun(Next(v, LateAck(p)), more, p.late)
            && OnlySends(more, {p.late}) && Twice(After(Next(v, LateAck(p)), more), 3);
  }

  lemma LateAckFacts(p: Drainers, c: Course)
    requires Reaches(Both(p), c, ThirdSent(p, ToggleFavorite))
    ensures Initial(START) && Inv(c.world) && ReKeys(c.world, LateAck(p)) && !Dead(c.world, Key(c.world.stored[3]))
    ensures Enabled(c.world, LateAck(p))
  {
    StartKeepsInv(c);
    ToggleIsReKeyed(p, c.world);
    LateAckCanCome(p, c.world, ToggleFavorite);
  }

  /** A run from an initial state, drained by these engines, all enqueues in time order. */
  ghost predicate TimelyRunOf(w: World, actions: seq<Action>, drainers: set<nat>) {
    Initial(w) && Runs(w, actions) && TimelyRun(w, actions) && DrainedBy(actions, drainers)
  }

  /** Whichever two engines drain, a command may take effect twice although all commands come in time order. */
  lemma SecondDrainerBreaksAtMostOnce(p: Drainers)
    ensures exists w, actions, op :: TimelyRunOf(w, actions, {p.late, p.fast}) && Twice(After(w, actions), op)
  {
    var c := ThirdSentIsReachable(p, ToggleFavorite);
    LateAckFacts(p, c);
    var more := ToggleMischief(p, c.world);
    hide Enabled, Next, ReKeys, Twice, Dead, TimelyRun, Runs;
    var all := LateAckThen(p, c, more);
    assert TimelyRunOf(START, all, {p.late, p.fast}) && Twice(After(START, all), 3);
  }

  /** An acknowledgement and then no enqueue: in time order. */
  lemma AckThenSends(v: World, a: Action, more: seq<Action>)
    requires Enabled(v, a) && a.Ack? && Runs(Next(v, a), more) && forall b | b in more :: !b.Enqueue?
    ensures Runs(v, [a] + more) && TimelyRun(v, [a] + more) && After(v, [a] + more) == After(Next(v, a), more)
  {
    hide Next, Enabled;
    SendsAreTimely(Next(v, a), more);
    assert ([a] + more)[1..] == more;
  }

  /** The whole run: up to the late acknowledgement, and what follows it. */
  lemma LateAckThen(p: Drainers, c: Course, more: seq<Action>) returns (all: seq<Action>)
    requires Reaches(Both(p), c, ThirdSent(p, ToggleFavorite)) && Enabled(c.world, LateAck(p))
    requires Runs(Next(c.world, LateAck(p)), more) && OnlySends(more, {p.late})
    ensures Runs(START, all) && TimelyRun(START, all) && DrainedBy(all, {p.late, p.fast})
    ensures After(START, all) == After(Next(c.world, LateAck(p)), more)
  {
    hide Next, Enabled, Runs, TimelyRun, After, ThirdSent, Shows;
    var rest := [LateAck(p)] + more;
    AckThenSends(c.world, LateAck(p), more);
    RunsConcat(START, c.actions, rest);
    TimelyRunsConcat(START, c.actions, rest);
    all := c.actions + rest;
  }

  lemma {:induction false} SendsAreTimely(w: World, actions: seq<Action>)
    requires Runs(w, actions) && forall a | a in actions :: !a.Enqueue?
    ensures TimelyRun(w, actions)
    decreases |actions|
  {
    if actions != [] {
      assert actions[0] in actions;
      SendsAreTimely(Next(w, actions[0]), actions[1..]);
    }
  }

  /** Whichever two engines drain, the first command may be acknowledged again after the second one. */
  lemma SecondDrainerBreaksOrder(p: Drainers)
    ensures exists w, actions, a, op ::
              TimelyRunOf(w, actions, {p.late, p.fast}) && AcknowledgesOutOfOrder(After(w, actions), a, op)
  {
    hide AcknowledgesOutOfOrder;
    var c := ThirdSentIsReachable(p, ToggleFavorite);
    OutOfOrderThere(p, c);
    StartKeepsInv(c);
    assert TimelyRunOf(START, c.actions, {p.late, p.fast});
    assert AcknowledgesOutOfOrder(After(START, c.actions), LateAck(p), 2);
  }

  lemma OutOfOrderThere(p: Drainers, c: Course)
    requires Reaches(Both(p), c, ThirdSent(p, ToggleFavorite))
    ensures AcknowledgesOutOfOrder(c.world, LateAck(p), 2)
  {
    hide Enabled, Inv, Runs, After;
    StartKeepsInv(c);
    hide Reaches;
    LateAckCanCome(p, c.world, ToggleFavorite);
    SecondIsBorn(p, c.world);
  }

  lemma SecondIsBorn(p: Drainers, v: World)
    requires Inv(v) && Shows(v, ThirdSent(p, ToggleFavorite))
    ensures 2 in v.born && v.born[2].entity == ITEM
  {
    assert Holds(v, v.engines[p.late]);
    assert Copy(v, 2, v.engines[p.late].seen[2]);
  }

  /**
   * A sealed third command is put in conflict, although its predecessor reached exactly the revision it
   * was sealed against and it is on its way.
   */
  lemma SecondDrainerConflictsSealed(p: Drainers)
    ensures exists w, actions, a ::
              && TimelyRunOf(w, actions, {p.late, p.fast}) && ChainsSealed(After(w, actions), a)
              && ChainedCopy(After(w, actions), a).status == Some(Conflicted)
              && !ConflictsRightly(After(w, actions), a)
  {
    var c := ThirdSentIsReachable(p, Update);
    LateAckCanCome(p, c.world, Update);
    SealedThere(p, c.world);
    StartKeepsInv(c);
    hide ConflictsRightly, ChainsSealed;
    assert TimelyRunOf(START, c.actions, {p.late, p.fast}) && After(START, c.actions) == c.world;
  }

  lemma SealedThere(p: Drainers, v: World)
    requires Shows(v, ThirdSent(p, Update))
    ensures ChainsSealed(v, LateAck(p)) && !ConflictsRightly(v, LateAck(p))
    ensures ChainedCopy(v, LateAck(p)).status == Some(Conflicted)
  {
    LateAckCanCome(p, v, Update);
  }
}
