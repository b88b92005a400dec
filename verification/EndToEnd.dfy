/** The engine against the server with contents: what one drain of a fitting queue achieves. */
module EndToEnd {
  import opened Options
  import opened Commands
  import opened DrainPass
  import opened SyncEngine
  import opened SoleWriter

  /**
   * If this engine is the only writer of its items and its queue fits the server, one drain empties the stored
   * queue, dispatches the commands in order, each once and an outdated one twice, and leaves the server with all of
   * them carried out.
   */
  method DrainToServer(engine: ItemSyncEngine, account: AccountId, remote: Remote, now: Time)
    returns (after: Remote, sent: seq<Command>)
    requires engine.Valid() && engine.storage.Valid() && engine.Closed(account)
    requires GoesThrough(Pass(QueueOf(engine.queues, account), {}, remote, []), now)
    modifies engine`queues, engine`persisted, engine`drainRequested, engine.storage
    ensures engine.Valid() && engine.storage.Valid()
    ensures engine.storage.document == old(engine.storage.document) - {account}
    ensures QueueOf(engine.queues, account) == []
    ensures after.items == Folded(remote.items, old(QueueOf(engine.queues, account)))
    ensures OpIds(sent) == Dispatches(remote.items, {}, old(QueueOf(engine.queues, account)))
    ensures UpToDate(remote.items, {}, old(QueueOf(engine.queues, account))) ==>
              OpIds(sent) == OpIds(old(QueueOf(engine.queues, account)))
  {
    ghost var start := Pass(QueueOf(engine.queues, account), {}, remote, []);
    var attempted;
    after, attempted, sent := engine.DrainAccount(account, Reachable(now), remote, None, 0);
    hide GoesThrough, Drained, Reachable, Folded, UpToDate, Dispatches;
    WholeQueueGoesThrough(start, now);
    if UpToDate(remote.items, {}, start.queue) {
      UpToDateDispatchesOnce(remote.items, {}, start.queue);
    }
  }
}
