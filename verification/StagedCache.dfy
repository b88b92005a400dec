/**
 * The item cache over its bulk record store: upserts, cascading removal, and bootstraps that are staged
 * out of sight and published by one record write.
 */
module StagedCache {
  import opened Options
  import opened CacheModel

  // ---------------------------------------------------------------------------
  // The record store
  // ---------------------------------------------------------------------------

  function PutAll(t: Table, texts: seq<(Id, Text)>): Table
    decreases |texts|
  {
    if texts == [] then t else PutAll(t[texts[0].0 := texts[0].1], texts[1..])
  }

  lemma {:induction false} PutAllConcat(t: Table, p: seq<(Id, Text)>, x: (Id, Text))
    ensures PutAll(t, p + [x]) == PutAll(t, p)[x.0 := x.1]
    decreases |p|
  {
    if p == [] {
      assert p + [x] == [x];
    } else {
      assert (p + [x])[1..] == p[1..] + [x];
      PutAllConcat(t[p[0].0 := p[0].1], p[1..], x);
    }
  }

  /**
   * From state r with trace before to state q with trace after only these collections were written, and
   * every state on the way differs from r in them only.
   */
  ghost predicate Wrote(before: seq<Records>, r: Records, after: seq<Records>, q: Records, cs: set<Collection>) {
    && |before| <= |after| && after[..|before|] == before && SameExcept(r, q, cs)
    && forall k | |before| <= k < |after| :: SameExcept(r, after[k], cs)
  }

  lemma WroteBoth(
    t0: seq<Records>, r0: Records, t1: seq<Records>, r1: Records, t2: seq<Records>, r2: Records,
    a: set<Collection>, b: set<Collection>)
    requires Wrote(t0, r0, t1, r1, a) && Wrote(t1, r1, t2, r2, b)
    ensures Wrote(t0, r0, t2, r2, a + b)
  {
    assert t2[..|t0|] == t2[..|t1|][..|t0|];
    forall k | |t0| <= k < |t2| ensures SameExcept(r0, t2[k], a + b) {
      if k < |t1| {
        assert t2[k] == t2[..|t1|][k] == t1[k];
        assert SameExcept(r0, t1[k], a);
      } else {
        assert SameExcept(r1, t2[k], b);
      }
    }
  }

  /** The states between two lengths of the trace show the account this view. */
  ghost predicate Shows(trace: seq<Records>, start: nat, end: nat, account: AccountId, view: View) {
    forall k | start <= k < end && k < |trace| :: ViewOf(trace[k], account) == view
  }

  /** Writes outside what a reader looks at are never noticed, not even half way. */
  lemma UnseenWrites(
    before: seq<Records>, r: Records, after: seq<Records>, q: Records, cs: set<Collection>, account: AccountId)
    requires Wrote(before, r, after, q, cs) && cs !! Visible(r, account)
    ensures ViewOf(q, account) == ViewOf(r, account) && Visible(q, account) == Visible(r, account)
    ensures Shows(after, |before|, |after|, account, ViewOf(r, account))
  {
    UnseenChanges(r, q, cs, account);
    forall k | |before| <= k < |after| ensures ViewOf(after[k], account) == ViewOf(r, account) {
      UnseenChanges(r, after[k], cs, account);
    }
  }

  /** One record at a time; trace is the store after every single write so far. */
  class RecordPort {
    var records: Records
    ghost var trace: seq<Records>

    constructor ()
      ensures records == map[] && trace == []
    {
      records := map[];
      trace := [];
    }

    method RecordPut(c: Collection, id: Id, text: Text)
      modifies this
      ensures records == old(records)[c := TableOf(old(records), c)[id := text]]
      ensures trace == old(trace) + [records] && Wrote(old(trace), old(records), trace, records, {c})
    {
      records := records[c := TableOf(records, c)[id := text]];
      trace := trace + [records];
    }

    method RecordDelete(c: Collection, id: Id)
      modifies this
      ensures records == old(records)[c := TableOf(old(records), c) - {id}]
      ensures trace == old(trace) + [records] && Wrote(old(trace), old(records), trace, records, {c})
    {
      records := records[c := TableOf(records, c) - {id}];
      trace := trace + [records];
    }

    method RecordClear(c: Collection)
      modifies this
      ensures records == old(records)[c := map[]]
      ensures trace == old(trace) + [records] && Wrote(old(trace), old(records), trace, records, {c})
    {
      records := records[c := map[]];
      trace := trace + [records];
    }

    /** The same writes as one put each; a crash in between leaves a prefix. */
    method RecordPutMany(c: Collection, texts: seq<(Id, Text)>)
      modifies this
      ensures TableOf(records, c) == PutAll(TableOf(old(records), c), texts)
      ensures Wrote(old(trace), old(records), trace, records, {c})
    {
      assert texts[0..] == texts;
      for i := 0 to |texts|
        invariant PutAll(TableOf(records, c), texts[i..]) == PutAll(TableOf(old(records), c), texts)
        invariant Wrote(old(trace), old(records), trace, records, {c})
      {
        assert texts[i..][0] == texts[i] && texts[i..][1..] == texts[i + 1..];
        RecordPut(c, texts[i].0, texts[i].1);
      }
    }
  }

  // ---------------------------------------------------------------------------
  // A staged bootstrap
  // ---------------------------------------------------------------------------

  class StagingGeneration {
    const port: RecordPort
    const account: AccountId
    const generation: Generation
    var settled: bool

    constructor (port: RecordPort, account: AccountId, generation: Generation)
      ensures this.port == port && this.account == account && this.generation == generation && !settled
    {
      this.port := port;
      this.account := account;
      this.generation := generation;
      settled := false;
    }

    ghost function Collections(): set<Collection> {
      {Items(account, Some(generation)), Vaults(account, Some(generation)),
       ItemBaseline(account, generation), VaultBaseline(account, generation)}
    }

    function StagedItems(): Table
      reads port
    {
      TableOf(port.records, Items(account, Some(generation)))
    }

    function StagedVaults(): Table
      reads port
    {
      TableOf(port.records, Vaults(account, Some(generation)))
    }

    /** No account reads this generation. */
    ghost predicate Hidden()
      reads port
    {
      ReadState(port.records, account).activeGeneration != Some(generation)
    }

    /** Nothing any reader of any account can see has changed, at any moment. */
    twostate predicate Unnoticed()
      reads port
    {
      forall a :: && ViewOf(port.records, a) == ViewOf(old(port.records), a)
                  && Shows(port.trace, |old(port.trace)|, |port.trace|, a, ViewOf(old(port.records), a))
    }

    /** Only these collections differ. */
    twostate predicate OnlyTouched(cs: set<Collection>)
      reads port
    {
      SameExcept(old(port.records), port.records, cs)
    }

    lemma HiddenIsUnseen(r: Records, a: AccountId)
      requires ReadState(r, account).activeGeneration != Some(generation)
      ensures Collections() !! Visible(r, a)
    {
      if a != account {
        assert ReadState(r, a).activeGeneration == ReadState(r, a).activeGeneration;
      }
    }

    /** One staged item; None if this generation is no longer writable. */
    method UpsertCachedItem(item: Item) returns (written: Option<bool>)
      requires !settled ==> Hidden()
      modifies port
      ensures written.None? <==> settled
      ensures settled ==> port.records == old(port.records)
      ensures !settled ==>
        && StagedItems() == Upserted(old(StagedItems()), item)
        && written == Some(!StoredIsNewer(Find(old(StagedItems()), item.id), item))
        && Hidden() && Unnoticed() && OnlyTouched({Items(account, Some(generation))})
    {
      if settled {
        return None;
      }
      written := Some(!StoredIsNewer(Find(StagedItems(), item.id), item));
      if written.value {
        port.RecordPut(Items(account, Some(generation)), item.id, Stringify(item));
      }
      WritesUnnoticed(old(port.trace), old(port.records), port.trace, port.records, {Items(account, Some(generation))});
    }

    lemma WritesUnnoticed(
      before: seq<Records>, r: Records, after: seq<Records>, q: Records, cs: set<Collection>)
      requires Wrote(before, r, after, q, cs) && cs <= Collections()
      requires ReadState(r, account).activeGeneration != Some(generation)
      ensures ReadState(q, account).activeGeneration != Some(generation)
      ensures forall a :: ViewOf(q, a) == ViewOf(r, a) && Shows(after, |before|, |after|, a, ViewOf(r, a))
    {
      HiddenIsUnseen(r, account);
      UnseenWrites(before, r, after, q, cs, account);
      assert ReadState(q, account) == ReadState(r, account);
      forall a ensures ViewOf(q, a) == ViewOf(r, a) && Shows(after, |before|, |after|, a, ViewOf(r, a)) {
        HiddenIsUnseen(r, a);
        UnseenWrites(before, r, after, q, cs, a);
      }
    }

    /** A page of items: one read of the collection, then only what sequential upserts would leave. */
    method UpsertCachedItems(items: seq<Item>) returns (ok: bool)
      requires !settled ==> Hidden()
      modifies port
      ensures ok == !settled
      ensures settled ==> port.records == old(port.records)
      ensures !settled ==>
        && StagedItems() == UpsertedAll(old(StagedItems()), items) && Hidden() && Unnoticed()
        && OnlyTouched({Items(account, Some(generation))})
    {
      if settled {
        return false;
      }
      ok := true;
      if items != [] {
        var c := Items(account, Some(generation));
        var stored := TableOf(port.records, c);
        var accepted: Table := map[];
        for i := 0 to |items|
          invariant stored + accepted == UpsertedAll(stored, items[..i])
          invariant port.records == old(port.records) && port.trace == old(port.trace)
        {
          assert items[..i + 1] == items[..i] + [items[i]];
          UpsertedAllConcat(stored, items[..i], items[i]);
          var item := items[i];
          var existing := if item.id in accepted then Some(accepted[item.id]) else Find(stored, item.id);
          if !StoredIsNewer(existing, item) {
            accepted := accepted[item.id := Stringify(item)];
          }
        }
        assert items[..|items|] == items;
        PutTable(port, c, accepted);
        WritesUnnoticed(old(port.trace), old(port.records), port.trace, port.records, {c});
      } else {
        WritesUnnoticed(old(port.trace), old(port.records), port.trace, port.records, {});
      }
    }

    method UpsertCachedVault(vault: Vault) returns (ok: bool)
      requires !settled ==> Hidden()
      modifies port
      ensures ok == !settled
      ensures settled ==> port.records == old(port.records)
      ensures !settled ==>
        && StagedVaults() == old(StagedVaults())[vault.id := VaultText(vault, 0)] && Hidden() && Unnoticed()
        && OnlyTouched({Vaults(account, Some(generation))})
    {
      ok := !settled;
      if ok {
        port.RecordPut(Vaults(account, Some(generation)), vault.id, VaultText(vault, 0));
        WritesUnnoticed(old(port.trace), old(port.records), port.trace, port.records,
                        {Vaults(account, Some(generation))});
      }
    }

    /** A page of vaults repeats each vault once per item; the last copy lands, as with one put each. */
    method UpsertCachedVaults(vaults: seq<Vault>) returns (ok: bool)
      requires !settled ==> Hidden()
      modifies port
      ensures ok == !settled
      ensures settled ==> port.records == old(port.records)
      ensures !settled ==>
        && StagedVaults() == VaultsPut(old(StagedVaults()), vaults) && Hidden() && Unnoticed()
        && OnlyTouched({Vaults(account, Some(generation))})
    {
      ok := !settled;
      if ok {
        var byId: map<Id, Vault> := map[];
        for i := 0 to |vaults|
          invariant byId == LastCopies(vaults[..i])
        {
          assert vaults[..i + 1][..i] == vaults[..i];
          byId := byId[vaults[i].id := vaults[i]];
        }
        assert vaults[..|vaults|] == vaults;
        LastCopiesSuffice(StagedVaults(), vaults);
        PutTable(port, Vaults(account, Some(generation)), VaultTexts(byId));
        WritesUnnoticed(old(port.trace), old(port.records), port.trace, port.records,
                        {Vaults(account, Some(generation))});
      }
    }

    /** Throws an unpublished generation away. */
    method Discard()
      requires !settled ==> Hidden()
      modifies port, this
      ensures settled
      ensures old(settled) ==> port.records == old(port.records)
      ensures !old(settled) ==>
        && (forall c | c in Collections() :: TableOf(port.records, c) == map[])
        && Hidden() && Unnoticed() && OnlyTouched(Collections())
    {
      if !settled {
        settled := true;
        ClearAll(port, [Items(account, Some(generation)), Vaults(account, Some(generation)),
                        ItemBaseline(account, generation), VaultBaseline(account, generation)]);
        WritesUnnoticed(old(port.trace), old(port.records), port.trace, port.records, Collections());
      }
    }

    // -------------------------------------------------------------------------
    // Promotion
    // -------------------------------------------------------------------------

    function Active(): Option<Generation>
      reads port
    {
      ReadState(port.records, account).activeGeneration
    }

    function ItemTrio(): Trio
      reads port
    {
      Trio(TableOf(port.records, ItemBaseline(account, generation)),
           TableOf(port.records, Items(account, Active())), StagedItems())
    }

    function VaultTrio(): Trio
      reads port
    {
      Trio(TableOf(port.records, VaultBaseline(account, generation)),
           TableOf(port.records, Vaults(account, Active())), StagedVaults())
    }

    /** Brings the staged items in line with what happened here since the baseline. */
    method ReconcileItems() returns (values: Table)
      requires Hidden()
      modifies port
      ensures values == ReconciledItems(old(ItemTrio())) && StagedItems() == values
      ensures Wrote(old(port.trace), old(port.records), port.trace, port.records, {Items(account, Some(generation))})
    {
      var c, t := Items(account, Some(generation)), ItemTrio();
      DropMissing(port, c, t.baseline.Keys, t.active.Keys);
      ghost var r1, t1 := port.records, port.trace;
      var kept;
      values, kept := KeepActiveItems(t, StagedItems());
      port.RecordPutMany(c, kept);
      WroteBoth(old(port.trace), old(port.records), t1, r1, port.trace, port.records, {c}, {c});
    }

    /** Removes the staged vaults deleted here since the baseline. */
    method DropDeletedVaults() returns (deleted: set<Id>)
      requires Hidden()
      modifies port
      ensures deleted == DeletedVaults(old(VaultTrio()))
      ensures StagedVaults() == old(StagedVaults()) - deleted
      ensures Wrote(old(port.trace), old(port.records), port.trace, port.records, {Vaults(account, Some(generation))})
    {
      var v := VaultTrio();
      DropMissing(port, Vaults(account, Some(generation)), v.baseline.Keys, v.active.Keys);
      deleted := v.baseline.Keys - v.active.Keys;
    }

    /** First half: items reconciled, vaults deleted here dropped along with their items. */
    method ReconcileDeletes() returns (values: Table)
      requires Hidden()
      modifies port
      ensures values == StagedItems() == PromotedItems(old(ItemTrio()), old(VaultTrio()))
      ensures StagedVaults() == old(StagedVaults()) - DeletedVaults(old(VaultTrio()))
      ensures Wrote(old(port.trace), old(port.records), port.trace, port.records,
                    {Items(account, Some(generation)), Vaults(account, Some(generation))})
    {
      hide ReconciledItems, DeletedVaults;
      var ci, cv := Items(account, Some(generation)), Vaults(account, Some(generation));
      values := ReconcileItems();
      ghost var r1, t1 := port.records, port.trace;
      ItemWritesLeaveVaults(old(port.records), r1);
      var deleted := DropDeletedVaults();
      ghost var r2, t2 := port.records, port.trace;
      WroteBoth(old(port.trace), old(port.records), t1, r1, t2, r2, {ci}, {cv});
      values := DropItemsOf(port, ci, values, deleted);
      WroteBoth(old(port.trace), old(port.records), t2, r2, port.trace, port.records, {ci} + {cv}, {ci});
      assert {ci} + {cv} + {ci} == {ci, cv};
    }

    lemma ItemWritesLeaveVaults(r: Records, q: Records)
      requires SameExcept(r, q, {Items(account, Some(generation))})
      requires ReadState(r, account).activeGeneration != Some(generation)
      ensures ReadState(q, account) == ReadState(r, account)
      ensures forall c: Collection | c.Vaults? || c.VaultBaseline? :: TableOf(q, c) == TableOf(r, c)
    {
      assert Meta(account) !in {Items(account, Some(generation))};
    }

    /** The staged collections become what promotion publishes; nobody sees it yet. */
    method Reconcile() returns (itemCount: nat)
      requires Hidden()
      modifies port
      ensures StagedItems() == PromotedItems(old(ItemTrio()), old(VaultTrio()))
      ensures StagedVaults() == PromotedVaults(old(VaultTrio()))
      ensures itemCount == |StagedItems()|
      ensures Wrote(old(port.trace), old(port.records), port.trace, port.records,
                    {Items(account, Some(generation)), Vaults(account, Some(generation))})
    {
      hide PromotedItems, PromotedVaults;
      var ci, cv := Items(account, Some(generation)), Vaults(account, Some(generation));
      var v := VaultTrio();
      var values := ReconcileDeletes();
      ghost var r1, t1 := port.records, port.trace;
      var kept := KeepActiveVaults(v, StagedVaults());
      port.RecordPutMany(cv, kept);
      WroteBoth(old(port.trace), old(port.records), t1, r1, port.trace, port.records, {ci, cv}, {cv});
      assert {ci, cv} + {cv} == {ci, cv};
      itemCount := |values|;
    }

    /** What readers see once this generation is published. */
    ghost function PublishedView(t: Trio, v: Trio, lastFullSyncAt: nat, cacheVersion: nat): View {
      var items := PromotedItems(t, v);
      View(Some(ItemsIn(items)), Some(VaultsIn(PromotedVaults(v))),
           Some(Metadata(lastFullSyncAt, |items|, cacheVersion)))
    }

    function PublishedState(lastFullSyncAt: nat, itemCount: nat, cacheVersion: nat): StateDocument {
      StateDocument(ITEM_CACHE_STATE_VERSION, true, true, Some(Metadata(lastFullSyncAt, itemCount, cacheVersion)),
                    Some(generation), NativeViewFor(account, Some(generation)))
    }

    /** One record write makes the staged collections the ones readers look at. */
    lemma PublishingShows(r: Records, q: Records, state: StateDocument)
      requires q == r[Meta(account) := TableOf(r, Meta(account))[META_RECORD_ID := StateText(state)]]
      requires state.metadata.Some?
      requires var m := state.metadata.value; state == PublishedState(m.lastFullSyncAt, m.itemCount, m.cacheVersion)
      ensures ReadState(q, account) == state
      ensures ViewOf(q, account)
           == View(Some(ItemsIn(TableOf(r, Items(account, Some(generation))))),
                   Some(VaultsIn(TableOf(r, Vaults(account, Some(generation))))), state.metadata)
    {
      assert ItemsIn(map[]) == map[] && VaultsIn(map[]) == map[];
    }

    /**
     * Publishes this generation. At every moment before the write numbered at readers of the account see the
     * old cache, from it on they see the three-way merge, and no other account ever notices.
     */
    method Promote(lastFullSyncAt: nat, cacheVersion: nat) returns (ok: bool, ghost at: nat)
      requires !settled ==> Hidden()
      modifies port, this
      ensures ok == !old(settled) && settled
      ensures !ok ==> port.records == old(port.records) && port.trace == old(port.trace)
      ensures ok ==>
        var after := PublishedView(old(ItemTrio()), old(VaultTrio()), lastFullSyncAt, cacheVersion);
        && ViewOf(port.records, account) == after && Active() == Some(generation)
        && StagedItems() == PromotedItems(old(ItemTrio()), old(VaultTrio()))
        && CleanedUp(old(Active()))
        && |old(port.trace)| <= at < |port.trace|
        && Shows(port.trace, |old(port.trace)|, at, account, ViewOf(old(port.records), account))
        && Shows(port.trace, at, |port.trace|, account, after)
      ensures forall a | a != account ::
                && ViewOf(port.records, a) == ViewOf(old(port.records), a)
                && Shows(port.trace, |old(port.trace)|, |port.trace|, a, ViewOf(old(port.records), a))
    {
      at := 0;
      ok := !settled;
      if ok {
        at := Publish(lastFullSyncAt, cacheVersion);
        settled := true;
      }
    }

    /** What promotion no longer needs: the baselines, and the generation it replaces. */
    function Stale(previous: Option<Generation>): seq<Collection> {
      (if previous.Some? then [Items(account, previous), Vaults(account, previous)] else [])
        + [ItemBaseline(account, generation), VaultBaseline(account, generation)]
    }

    /** The generation replaced and the baselines are gone, and nothing else of the store was touched. */
    twostate predicate CleanedUp(previous: Option<Generation>)
      reads port
    {
      && TableOf(port.records, ItemBaseline(account, generation)) == map[]
      && TableOf(port.records, VaultBaseline(account, generation)) == map[]
      && (previous.Some? ==>
            && TableOf(port.records, Items(account, previous)) == map[]
            && TableOf(port.records, Vaults(account, previous)) == map[])
      && OnlyTouched(Collections() + {Meta(account)}
                     + if previous.Some? then {Items(account, previous), Vaults(account, previous)} else {})
    }

    lemma PublishFrames(
      t0: seq<Records>, r0: Records, t1: seq<Records>, r1: Records, r2: Records, t2: seq<Records>,
      t3: seq<Records>, r3: Records, previous: Option<Generation>)
      requires Wrote(t0, r0, t1, r1, StagedCollections()) && Wrote(t1, r1, t2, r2, {Meta(account)})
      requires Wrote(t2, r2, t3, r3, Members(Stale(previous)))
      ensures SameExcept(r0, r3, Collections() + {Meta(account)}
                                 + if previous.Some? then {Items(account, previous), Vaults(account, previous)} else {})
    {
      CleaningUp(r0, r1, r2, r3, previous);
    }

    lemma CleaningUp(r0: Records, r1: Records, r2: Records, r3: Records, previous: Option<Generation>)
      requires SameExcept(r0, r1, StagedCollections()) && SameExcept(r1, r2, {Meta(account)})
      requires SameExcept(r2, r3, Members(Stale(previous)))
      ensures SameExcept(r0, r3, Collections() + {Meta(account)}
                                 + if previous.Some? then {Items(account, previous), Vaults(account, previous)} else {})
    {
      assert Members(Stale(previous))
          <= Collections() + (if previous.Some? then {Items(account, previous), Vaults(account, previous)} else {});
    }

    lemma StaleAre(previous: Option<Generation>)
      ensures var s := Stale(previous);
              && ItemBaseline(account, generation) in s && VaultBaseline(account, generation) in s
              && (previous.Some? ==> Items(account, previous) in s && Vaults(account, previous) in s)
    {
      var s := Stale(previous);
      assert s[|s| - 1] in s && s[|s| - 2] in s && s[0] in s && s[1] in s;
    }

    method Publish(lastFullSyncAt: nat, cacheVersion: nat) returns (ghost at: nat)
      requires Hidden()
      modifies port
      ensures var after := PublishedView(old(ItemTrio()), old(VaultTrio()), lastFullSyncAt, cacheVersion);
              && ViewOf(port.records, account) == after && Active() == Some(generation)
              && StagedItems() == PromotedItems(old(ItemTrio()), old(VaultTrio()))
              && CleanedUp(old(Active()))
              && |old(port.trace)| <= at < |port.trace|
              && Shows(port.trace, |old(port.trace)|, at, account, ViewOf(old(port.records), account))
              && Shows(port.trace, at, |port.trace|, account, after)
      ensures forall a | a != account ::
                && ViewOf(port.records, a) == ViewOf(old(port.records), a)
                && Shows(port.trace, |old(port.trace)|, |port.trace|, a, ViewOf(old(port.records), a))
    {
      hide PromotedItems, PromotedVaults, Wrote, Shows, ViewOf, SameExcept;
      var previous := Active();
      ghost var r0, t0 := port.records, port.trace;
      var itemCount := Reconcile();
      ghost var r1, t1 := port.records, port.trace;
      at := |t1|;
      var state := PublishedState(lastFullSyncAt, itemCount, cacheVersion);
      port.RecordPut(Meta(account), META_RECORD_ID, StateText(state));
      ghost var r2, t2 := port.records, port.trace;
      PublishingShows(r1, r2, state);
      var stale := Stale(previous);
      ClearAll(port, stale);
      SwitchesOnce(t0, r0, t1, r1, r2, port.trace, port.records, Members(stale));
      StagedAreKept(t2, r2, port.trace, port.records, Members(stale));
      PublishFrames(t0, r0, t1, r1, r2, t2, port.trace, port.records, previous);
      StaleAre(previous);
    }

    ghost function StagedCollections(): set<Collection> {
      {Items(account, Some(generation)), Vaults(account, Some(generation))}
    }

    lemma StagedAreKept(
      t2: seq<Records>, r2: Records, t3: seq<Records>, r3: Records, stale: set<Collection>)
      requires Wrote(t2, r2, t3, r3, stale) && stale !! Visible(r2, account)
      requires ReadState(r2, account).activeGeneration == Some(generation)
      ensures TableOf(r3, Items(account, Some(generation))) == TableOf(r2, Items(account, Some(generation)))
      ensures ReadState(r3, account) == ReadState(r2, account)
    {
      UnseenWrites(t2, r2, t3, r3, stale, account);
      assert Items(account, Some(generation)) in Visible(r2, account) && Meta(account) in Visible(r2, account);
    }

    /** Staged writes, one state record, clean-up: readers switch from the old view to the new one at that record. */
    lemma SwitchesOnce(
      t0: seq<Records>, r0: Records, t1: seq<Records>, r1: Records, r2: Records, t3: seq<Records>, r3: Records,
      stale: set<Collection>)
      requires ReadState(r0, account).activeGeneration != Some(generation)
      requires Wrote(t0, r0, t1, r1, StagedCollections())
      requires SameExcept(r1, r2, {Meta(account)})
      requires Wrote(t1 + [r2], r2, t3, r3, stale) && stale !! Visible(r2, account)
      requires forall c: Collection | c in stale :: c.account == account
      ensures |t0| <= |t1| < |t3| && Shows(t3, |t0|, |t1|, account, ViewOf(r0, account))
      ensures Shows(t3, |t1|, |t3|, account, ViewOf(r2, account)) && ViewOf(r3, account) == ViewOf(r2, account)
      ensures forall a | a != account ::
                ViewOf(r3, a) == ViewOf(r0, a) && Shows(t3, |t0|, |t3|, a, ViewOf(r0, a))
    {
      HiddenIsUnseen(r0, account);
      UnseenWrites(t0, r0, t1, r1, StagedCollections(), account);
      UnseenWrites(t1 + [r2], r2, t3, r3, stale, account);
      assert forall k | 0 <= k <= |t1| :: t3[k] == (t1 + [r2])[k];
      forall a | a != account ensures ViewOf(r3, a) == ViewOf(r0, a) && Shows(t3, |t0|, |t3|, a, ViewOf(r0, a)) {
        OthersNeverNotice(t0, r0, t1, r1, r2, t3, r3, stale, a);
      }
    }

    lemma OthersNeverNotice(
      t0: seq<Records>, r0: Records, t1: seq<Records>, r1: Records, r2: Records, t3: seq<Records>, r3: Records,
      stale: set<Collection>, a: AccountId)
      requires Wrote(t0, r0, t1, r1, StagedCollections())
      requires SameExcept(r1, r2, {Meta(account)})
      requires Wrote(t1 + [r2], r2, t3, r3, stale) && a != account
      requires forall c: Collection | c in stale :: c.account == account
      ensures ViewOf(r3, a) == ViewOf(r0, a) && Shows(t3, |t0|, |t3|, a, ViewOf(r0, a))
    {
      UnseenWrites(t0, r0, t1, r1, StagedCollections(), a);
      UnseenChanges(r1, r2, {Meta(account)}, a);
      UnseenWrites(t1 + [r2], r2, t3, r3, stale, a);
      assert forall k | 0 <= k <= |t1| :: t3[k] == (t1 + [r2])[k];
    }
  }

  /** Puts every record of a table, each id once. */
  method PutTable(port: RecordPort, c: Collection, texts: Table)
    modifies port
    ensures TableOf(port.records, c) == TableOf(old(port.records), c) + texts
    ensures Wrote(old(port.trace), old(port.records), port.trace, port.records, {c})
  {
    var list := Entries(texts, TableOf(port.records, c));
    port.RecordPutMany(c, list);
  }

  /** The records of a table in some order. */
  method Entries(texts: Table, ghost before: Table) returns (list: seq<(Id, Text)>)
    ensures PutAll(before, list) == before + texts
  {
    list := [];
    var rest := texts;
    while rest.Keys != {}
      invariant rest.Keys <= texts.Keys && forall id | id in rest :: rest[id] == texts[id]
      invariant PutAll(before, list) + rest == before + texts
      decreases rest.Keys
    {
      var id :| id in rest.Keys;
      PutAllConcat(before, list, (id, rest[id]));
      MoveOne(PutAll(before, list), rest, id);
      list := list + [(id, rest[id])];
      rest := rest - {id};
    }
    assert PutAll(before, list) + rest == PutAll(before, list);
  }

  lemma MoveOne(t: Table, rest: Table, id: Id)
    requires id in rest
    ensures t[id := rest[id]] + (rest - {id}) == t + rest
  {
    var a, b := t[id := rest[id]] + (rest - {id}), t + rest;
    assert a.Keys == b.Keys;
    forall k | k in b ensures a[k] == b[k] {
    }
  }

  function Members(cs: seq<Collection>): set<Collection> {
    set c | c in cs
  }

  method ClearAll(port: RecordPort, cs: seq<Collection>)
    modifies port
    ensures forall c | c in cs :: TableOf(port.records, c) == map[]
    ensures Wrote(old(port.trace), old(port.records), port.trace, port.records, Members(cs))
  {
    for i := 0 to |cs|
      invariant forall k | 0 <= k < i :: TableOf(port.records, cs[k]) == map[]
      invariant Wrote(old(port.trace), old(port.records), port.trace, port.records, Members(cs))
    {
      port.RecordClear(cs[i]);
    }
  }

  /** Deletes from a collection what the baseline had and the active collection no longer has. */
  method DropMissing(port: RecordPort, c: Collection, baseline: set<Id>, active: set<Id>)
    modifies port
    ensures TableOf(port.records, c) == TableOf(old(port.records), c) - (baseline - active)
    ensures Wrote(old(port.trace), old(port.records), port.trace, port.records, {c})
  {
    var rest := baseline;
    while rest != {}
      invariant rest <= baseline
      invariant TableOf(port.records, c) == TableOf(old(port.records), c) - ((baseline - rest) - active)
      invariant Wrote(old(port.trace), old(port.records), port.trace, port.records, {c})
      decreases rest
    {
      var id :| id in rest;
      ghost var gone := (baseline - rest) - active;
      ghost var r1, t1 := port.records, port.trace;
      rest := rest - {id};
      if id !in active {
        port.RecordDelete(c, id);
        WroteBoth(old(port.trace), old(port.records), t1, r1, port.trace, port.records, {c}, {c});
        assert (baseline - rest) - active == gone + {id};
      } else {
        assert (baseline - rest) - active == gone;
      }
    }
  }

  /** Lays the active records that win over the staged ones. */
  method KeepActiveItems(t: Trio, staged: Table) returns (values: Table, kept: seq<(Id, Text)>)
    requires staged == t.staged - (t.baseline.Keys - t.active.Keys)
    ensures values == ReconciledItems(t) && PutAll(staged, kept) == values
  {
    values, kept := staged, [];
    var rest := t.active.Keys;
    while rest != {}
      invariant rest <= t.active.Keys && PutAll(staged, kept) == values
      invariant forall id :: Find(values, id) ==
                             (if id in t.active.Keys - rest && KeepsActive(t, id) then Some(t.active[id])
                              else Find(staged, id))
      decreases rest
    {
      var id :| id in rest;
      rest := rest - {id};
      var record := t.active[id];
      var item, stagedItem := ParsedItem(record), if id in values then ParsedItem(values[id]) else None;
      assert Find(values, id) == Find(t.staged, id);
      if item.Some?
         && (|| Find(t.baseline, id) != Some(record)
             || (stagedItem.Some? && item.value.version > stagedItem.value.version))
      {
        PutAllConcat(staged, kept, (id, record));
        kept, values := kept + [(id, record)], values[id := record];
      }
    }
    assert forall id :: Find(values, id) == Reconciled(t, id);
    SameFinds(values, ReconciledItems(t));
  }

  lemma SameFinds(t: Table, u: Table)
    requires forall id :: Find(t, id) == Find(u, id)
    ensures t == u
  {
    forall id ensures id in t <==> id in u {
      assert Find(t, id) == Find(u, id);
    }
    forall id | id in t ensures t[id] == u[id] {
      assert Find(t, id) == Find(u, id);
    }
  }

  method KeepActiveVaults(v: Trio, staged: Table) returns (kept: seq<(Id, Text)>)
    requires staged == v.staged - (v.baseline.Keys - v.active.Keys)
    ensures PutAll(staged, kept) == PromotedVaults(v)
  {
    kept := [];
    ghost var values := staged;
    var rest := v.active.Keys;
    while rest != {}
      invariant rest <= v.active.Keys && PutAll(staged, kept) == values
      invariant forall id :: Find(values, id) ==
                             (if id in v.active.Keys - rest && Find(v.baseline, id) != Some(v.active[id])
                              then Some(v.active[id]) else Find(staged, id))
      decreases rest
    {
      var id :| id in rest;
      rest := rest - {id};
      var record := v.active[id];
      if Find(v.baseline, id) != Some(record) {
        PutAllConcat(staged, kept, (id, record));
        kept, values := kept + [(id, record)], values[id := record];
      }
    }
    assert forall id :: Find(values, id) == ReconciledVault(v, id);
    SameFinds(values, PromotedVaults(v));
  }

  /** Deletes the items of vaults that are gone, here and in the collection. */
  method DropItemsOf(port: RecordPort, c: Collection, values: Table, deleted: set<Id>) returns (left: Table)
    requires TableOf(port.records, c) == values
    modifies port
    ensures left == (map id | id in values && !InDeletedVault(values[id], deleted) :: values[id])
    ensures TableOf(port.records, c) == left
    ensures Wrote(old(port.trace), old(port.records), port.trace, port.records, {c})
  {
    left := values;
    var rest := values.Keys;
    while rest != {}
      invariant rest <= values.Keys && TableOf(port.records, c) == left
      invariant left.Keys == set id | id in values && (id in rest || !InDeletedVault(values[id], deleted))
      invariant forall id | id in left :: left[id] == values[id]
      invariant Wrote(old(port.trace), old(port.records), port.trace, port.records, {c})
      decreases rest
    {
      var id :| id in rest;
      ghost var r1, t1 := port.records, port.trace;
      rest := rest - {id};
      if InDeletedVault(values[id], deleted) {
        port.RecordDelete(c, id);
        WroteBoth(old(port.trace), old(port.records), t1, r1, port.trace, port.records, {c}, {c});
        left := left - {id};
      }
    }
  }
}
