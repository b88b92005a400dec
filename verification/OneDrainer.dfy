/**
 * How many engines may drain. With commands in time order, acknowledgements come in enqueue order exactly if at most
 * one engine drains, and so every ordinary command takes effect at most once.
 */
module OneDrainer {
  import opened Options
  import opened Commands
  import opened Protocol
  import opened ProtocolSafety
  import opened Delivery
  import opened ExactlyOnce
  import opened KeyChange
  import opened EnqueueOrder
  import opened TwoDrainers

  /** Drained by these engines, no run in time order can come to acknowledge commands of one entity out of order. */
  ghost predicate OrderKept(drainers: set<nat>) {
    forall w, actions, a, op | TimelyRunOf(w, actions, drainers) :: !AcknowledgesOutOfOrder(After(w, actions), a, op)
  }

  /** Drained by these engines, no run in time order lets a command take effect twice. */
  ghost predicate AtMostOnceKept(drainers: set<nat>) {
    forall w, actions, op | TimelyRunOf(w, actions, drainers) :: !Twice(After(w, actions), op)
  }

  lemma {:induction false} DrainedByOneIsOrderly(w: World, actions: seq<Action>, d: nat)
    requires Runs(w, actions) && TimelyRun(w, actions) && DrainedBy(actions, {d})
    ensures OrderlyRun(w, actions, d)
    decreases |actions|
  {
    if actions != [] {
      assert actions[0] in actions;
      assert forall a | a in actions[1..] :: a in actions;
      DrainedByOneIsOrderly(Next(w, actions[0]), actions[1..], d);
    }
  }

  /** Either at most one engine drains, or some two do. */
  lemma OneOrTwo(drainers: set<nat>)
    ensures |drainers| <= 1 ==> exists d: nat :: drainers <= {d}
    ensures |drainers| > 1 ==> exists p: Drainers :: {p.late, p.fast} <= drainers
  {
    if drainers == {} {
      assert drainers <= {0};
    } else {
      var d :| d in drainers;
      var rest := drainers - {d};
      if rest == {} {
        assert drainers == {d};
      } else {
        var e :| e in rest;
        var p: Drainers := Pair(d, e);
        assert {p.late, p.fast} <= drainers;
        assert |drainers - {d} - {e}| + 2 == |drainers|;
      }
    }
  }

  lemma MoreMayDrain(w: World, actions: seq<Action>, few: set<nat>, many: set<nat>)
    requires TimelyRunOf(w, actions, few) && few <= many
    ensures TimelyRunOf(w, actions, many)
  {
  }

  lemma OneKeepsOrder(d: nat, w: World, actions: seq<Action>, a: Action, op: Id)
    requires TimelyRunOf(w, actions, {d})
    ensures !AcknowledgesOutOfOrder(After(w, actions), a, op)
  {
    DrainedByOneIsOrderly(w, actions, d);
    if AcknowledgesOutOfOrder(After(w, actions), a, op) {
      AcknowledgedInEnqueueOrder(w, actions, d, a, op);
    }
  }

  lemma OneKeepsAtMostOnce(d: nat, w: World, actions: seq<Action>, op: Id)
    requires TimelyRunOf(w, actions, {d})
    ensures !Twice(After(w, actions), op)
  {
    DrainedByOneIsOrderly(w, actions, d);
    hide TookEffect;
    forall k1, k2 | TookEffect(After(w, actions), k1, op) && TookEffect(After(w, actions), k2, op) ensures k1 == k2 {
      OrderlyAtMostOnce(w, actions, d, op, k1, k2);
    }
  }

  /**
   * The exact condition on who drains: commands enqueued in time order are acknowledged in enqueue order, in every
   * run, if and only if at most one engine drains.
   */
  lemma OrderKeptIff(drainers: set<nat>)
    ensures OrderKept(drainers) <==> |drainers| <= 1
  {
    OneOrTwo(drainers);
    hide AcknowledgesOutOfOrder;
    if |drainers| <= 1 {
      var d: nat :| drainers <= {d};
      forall w, actions, a, op | TimelyRunOf(w, actions, drainers)
        ensures !AcknowledgesOutOfOrder(After(w, actions), a, op)
      {
        MoreMayDrain(w, actions, drainers, {d});
        OneKeepsOrder(d, w, actions, a, op);
      }
    } else {
      var p: Drainers :| {p.late, p.fast} <= drainers;
      SecondDrainerBreaksOrder(p);
      var w, actions, a, op :|
        TimelyRunOf(w, actions, {p.late, p.fast}) && AcknowledgesOutOfOrder(After(w, actions), a, op);
      MoreMayDrain(w, actions, {p.late, p.fast}, drainers);
    }
  }

  /** And commands enqueued in time order take effect at most once, in every run, under the very same condition. */
  lemma AtMostOnceKeptIff(drainers: set<nat>)
    ensures AtMostOnceKept(drainers) <==> |drainers| <= 1
  {
    OneOrTwo(drainers);
    hide Twice;
    if |drainers| <= 1 {
      var d: nat :| drainers <= {d};
      forall w, actions, op | TimelyRunOf(w, actions, drainers)
        ensures !Twice(After(w, actions), op)
      {
        MoreMayDrain(w, actions, drainers, {d});
        OneKeepsAtMostOnce(d, w, actions, op);
      }
    } else {
      var p: Drainers :| {p.late, p.fast} <= drainers;
      SecondDrainerBreaksAtMostOnce(p);
      var w, actions, op :| TimelyRunOf(w, actions, {p.late, p.fast}) && Twice(After(w, actions), op);
      MoreMayDrain(w, actions, {p.late, p.fast}, drainers);
    }
  }
}
