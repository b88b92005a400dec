/**
 * The operations on a published cache, in terms of what readers of the account see. Every one
 * of them runs under the account's lock and leaves every other account alone.
 */
module CacheOperations {
  import opened Options
  import opened CacheModel
  import opened StagedCache

  function LastItems(items: seq<Item>): map<Id, Item> {
    if items == [] then map[]
    else LastItems(items[..|items| - 1])[items[|items| - 1].id := items[|items| - 1]]
  }

  /** The last copy of each id, and no other id. */
  lemma {:induction false} LastItemsAre(items: seq<Item>, id: Id)
    ensures id in LastItems(items) <==> exists k :: 0 <= k < |items| && items[k].id == id
    ensures id in LastItems(items) ==>
              exists k :: 0 <= k < |items| && LastItems(items)[id] == items[k] && items[k].id == id
                          && forall j | k < j < |items| :: items[j].id != id
  {
    if items != [] {
      var rest, last := items[..|items| - 1], items[|items| - 1];
      LastItemsAre(rest, id);
      if last.id != id && id in LastItems(rest) {
        var k :| 0 <= k < |rest| && LastItems(rest)[id] == rest[k] && rest[k].id == id
                 && forall j | k < j < |rest| :: rest[j].id != id;
        assert items[k] == rest[k];
      }
    }
  }

  function ItemTexts(items: map<Id, Item>): Table {
    map id | id in items :: Stringify(items[id])
  }

  /** The items a reader gets, none if the account was never synced. */
  function Listed(view: View): map<Id, Item> {
    view.items.GetOr(map[])
  }

  function ListedVaults(view: View): map<Id, Vault> {
    view.vaults.GetOr(map[])
  }

  lemma ItemsInPut(t: Table, item: Item)
    ensures ItemsIn(t[item.id := Stringify(item)]) == ItemsIn(t)[item.id := item]
  {
  }

  lemma ListedIs(r: Records, account: AccountId)
    ensures Listed(ViewOf(r, account)) == ItemsIn(TableOf(r, Items(account, ReadState(r, account).activeGeneration)))
    ensures ListedVaults(ViewOf(r, account))
         == VaultsIn(TableOf(r, Vaults(account, ReadState(r, account).activeGeneration)))
  {
    assert ItemsIn(map[]) == map[] && VaultsIn(map[]) == map[];
  }

  class ItemCache {
    const port: RecordPort

    constructor (port: RecordPort)
      ensures this.port == port
    {
      this.port := port;
    }

    function View(account: AccountId): View
      reads port
    {
      ViewOf(port.records, account)
    }

    /** The collections readers of this account look at. */
    function ItemsNow(account: AccountId): Collection
      reads port
    {
      Items(account, ReadState(port.records, account).activeGeneration)
    }

    function VaultsNow(account: AccountId): Collection
      reads port
    {
      Vaults(account, ReadState(port.records, account).activeGeneration)
    }

    /** Only these collections differ: no other account, no staged generation. */
    twostate predicate OnlyTouched(cs: set<Collection>)
      reads port
    {
      SameExcept(old(port.records), port.records, cs)
    }

    twostate predicate OthersUntouched(account: AccountId)
      reads port
    {
      forall a | a != account :: ViewOf(port.records, a) == ViewOf(old(port.records), a)
    }

    lemma OwnWrites(r: Records, q: Records, cs: set<Collection>, account: AccountId)
      requires SameExcept(r, q, cs) && forall c: Collection | c in cs :: c.account == account
      ensures forall a | a != account :: ViewOf(q, a) == ViewOf(r, a)
    {
      forall a | a != account ensures ViewOf(q, a) == ViewOf(r, a) {
        UnseenChanges(r, q, cs, a);
      }
    }

    method GetCachedItems(account: AccountId) returns (items: Option<map<Id, Item>>)
      ensures items == View(account).items
    {
      var state := ReadState(port.records, account);
      var records := TableOf(port.records, Items(account, state.activeGeneration));
      if records != map[] {
        items := Some(ItemsIn(records));
      } else {
        items := if state.itemsPrimed then Some(map[]) else None;
      }
    }

    /** Writes the item unless a newer version of it is already cached. */
    method UpsertCachedItem(item: Item, account: AccountId) returns (written: bool)
      modifies port
      ensures var before := Listed(old(View(account)));
              && written == (item.id !in before || before[item.id].version <= item.version)
              && View(account) == if written then old(View(account)).(items := Some(before[item.id := item]))
                                  else old(View(account))
      ensures |port.trace| == |old(port.trace)| + (if written then 1 else 0)
      ensures OthersUntouched(account) && OnlyTouched({old(ItemsNow(account))})
    {
      var state := ReadState(port.records, account);
      var c := Items(account, state.activeGeneration);
      ListedIs(port.records, account);
      written := !StoredIsNewer(Find(TableOf(port.records, c), item.id), item);
      if written {
        ItemsInPut(TableOf(port.records, c), item);
        port.RecordPut(c, item.id, Stringify(item));
        OwnWrites(old(port.records), port.records, {c}, account);
      }
    }

    method RemoveCachedItem(itemId: Id, account: AccountId)
      modifies port
      ensures Listed(View(account)) == Listed(old(View(account))) - {itemId}
      ensures View(account).vaults == old(View(account)).vaults && View(account).metadata == old(View(account)).metadata
      ensures |port.trace| == |old(port.trace)| + 1
      ensures OthersUntouched(account) && OnlyTouched({old(ItemsNow(account))})
    {
      var state := ReadState(port.records, account);
      var c := Items(account, state.activeGeneration);
      ListedIs(port.records, account);
      port.RecordDelete(c, itemId);
      assert ReadState(port.records, account) == state;
      ListedIs(port.records, account);
      OwnWrites(old(port.records), port.records, {c}, account);
    }

    method UpsertCachedVault(vault: Vault, account: AccountId)
      modifies port
      ensures View(account)
           == old(View(account)).(vaults := Some(ListedVaults(old(View(account)))[vault.id := vault]))
      ensures OthersUntouched(account) && OnlyTouched({old(VaultsNow(account))})
    {
      var state := ReadState(port.records, account);
      var c := Vaults(account, state.activeGeneration);
      ListedIs(port.records, account);
      port.RecordPut(c, vault.id, VaultText(vault, 0));
      assert ReadState(port.records, account) == state;
      assert VaultsIn(TableOf(port.records, c)) == VaultsIn(TableOf(old(port.records), c))[vault.id := vault];
      assert vault.id in TableOf(port.records, c);
      var items := Items(account, state.activeGeneration);
      assert TableOf(port.records, items) == TableOf(old(port.records), items);
      OwnWrites(old(port.records), port.records, {c}, account);
    }

    /** Removes a vault and every cached item in it. */
    method RemoveCachedVault(vaultId: Id, account: AccountId)
      modifies port
      ensures ListedVaults(View(account)) == ListedVaults(old(View(account))) - {vaultId}
      ensures var before := Listed(old(View(account)));
              Listed(View(account)) == map id | id in before && before[id].vaultId != vaultId :: before[id]
      ensures View(account).metadata == old(View(account)).metadata
      ensures OthersUntouched(account) && OnlyTouched({old(ItemsNow(account)), old(VaultsNow(account))})
    {
      var state := ReadState(port.records, account);
      var cv, ci := Vaults(account, state.activeGeneration), Items(account, state.activeGeneration);
      ListedIs(port.records, account);
      port.RecordDelete(cv, vaultId);
      ghost var r1 := port.records;
      var values := TableOf(port.records, ci);
      var left := DropItemsOf(port, ci, values, {vaultId});
      SameState(old(port.records), port.records, {cv, ci}, account);
      ListedIs(port.records, account);
      OwnWrites(old(port.records), port.records, {cv, ci}, account);
    }

    lemma SameState(r: Records, q: Records, cs: set<Collection>, account: AccountId)
      requires SameExcept(r, q, cs) && Meta(account) !in cs
      ensures ReadState(q, account) == ReadState(r, account)
    {
    }

    method SetItemCacheMetadata(metadata: Metadata, account: AccountId)
      modifies port
      ensures View(account) == old(View(account)).(metadata := Some(metadata))
      ensures OthersUntouched(account) && OnlyTouched({Meta(account)})
    {
      var state := ReadState(port.records, account);
      port.RecordPut(Meta(account), META_RECORD_ID, StateText(state.(metadata := Some(metadata))));
      assert ReadState(port.records, account) == state.(metadata := Some(metadata));
      OwnWrites(old(port.records), port.records, {Meta(account)}, account);
    }

    /** Replaces the whole set of items; from now on an empty cache reads as synced. */
    method SetCachedItems(items: seq<Item>, account: AccountId)
      modifies port
      ensures View(account) == old(View(account)).(items := Some(LastItems(items)))
      ensures OthersUntouched(account) && OnlyTouched({old(ItemsNow(account)), Meta(account)})
    {
      var state := ReadState(port.records, account);
      var c := Items(account, state.activeGeneration);
      port.RecordClear(c);
      ghost var r1 := port.records;
      var list := [];
      for i := 0 to |items|
        invariant PutAll(map[], list) == ItemTexts(LastItems(items[..i]))
        invariant port.records == r1
      {
        PutAllConcat(map[], list, (items[i].id, Stringify(items[i])));
        assert items[..i + 1][..i] == items[..i];
        list := list + [(items[i].id, Stringify(items[i]))];
      }
      assert items[..|items|] == items;
      port.RecordPutMany(c, list);
      SameState(old(port.records), port.records, {c}, account);
      ghost var r2 := port.records;
      Prime(account, state.(itemsPrimed := true));
      ItemsInTexts(LastItems(items));
      OwnWrites(old(port.records), port.records, {c, Meta(account)}, account);
    }

    lemma ItemsInTexts(items: map<Id, Item>)
      ensures ItemsIn(ItemTexts(items)) == items
    {
    }

    /** Records that a full set has been written, unless it already is recorded. */
    method Prime(account: AccountId, primed: StateDocument)
      requires var state := ReadState(port.records, account);
               primed in {state.(itemsPrimed := true), state.(vaultsPrimed := true)}
      modifies port
      ensures ReadState(port.records, account) == primed
      ensures SameExcept(old(port.records), port.records, {Meta(account)})
    {
      var state := ReadState(port.records, account);
      if state != primed {
        port.RecordPut(Meta(account), META_RECORD_ID, StateText(primed));
      }
    }

    method SetCachedVaults(vaults: seq<Vault>, account: AccountId)
      modifies port
      ensures View(account) == old(View(account)).(vaults := Some(LastCopies(vaults)))
      ensures OthersUntouched(account) && OnlyTouched({old(VaultsNow(account)), Meta(account)})
    {
      var state := ReadState(port.records, account);
      var c := Vaults(account, state.activeGeneration);
      port.RecordClear(c);
      ghost var r1 := port.records;
      var list := [];
      for i := 0 to |vaults|
        invariant PutAll(map[], list) == VaultTexts(LastCopies(vaults[..i]))
        invariant port.records == r1
      {
        PutAllConcat(map[], list, (vaults[i].id, VaultText(vaults[i], 0)));
        assert vaults[..i + 1][..i] == vaults[..i];
        list := list + [(vaults[i].id, VaultText(vaults[i], 0))];
      }
      assert vaults[..|vaults|] == vaults;
      port.RecordPutMany(c, list);
      SameState(old(port.records), port.records, {c}, account);
      Prime(account, state.(vaultsPrimed := true));
      assert VaultsIn(VaultTexts(LastCopies(vaults))) == LastCopies(vaults);
      OwnWrites(old(port.records), port.records, {c, Meta(account)}, account);
    }

    /** Forgets everything about this account: the next read says "never synced". */
    method ClearItemCache(account: AccountId)
      modifies port
      ensures View(account) == CacheModel.View(None, None, None)
      ensures TableOf(port.records, Items(account, None)) == TableOf(port.records, Vaults(account, None)) == map[]
      ensures TableOf(port.records, old(ItemsNow(account))) == TableOf(port.records, old(VaultsNow(account))) == map[]
      ensures TableOf(port.records, Meta(account)) == map[]
      ensures OthersUntouched(account)
      ensures OnlyTouched({Items(account, None), Vaults(account, None), old(ItemsNow(account)), old(VaultsNow(account)),
                           Meta(account)})
    {
      var generation := ReadState(port.records, account).activeGeneration;
      var cs := [Items(account, None), Vaults(account, None), Items(account, generation), Vaults(account, generation),
                 Meta(account)];
      ClearAll(port, cs);
      assert cs[0] in cs && cs[1] in cs && cs[2] in cs && cs[3] in cs && cs[4] in cs;
      OwnWrites(old(port.records), port.records, Members(cs), account);
    }

    /** A write generation nobody reads: empty, with a copy of the current cache as its baseline. */
    method BeginStagedGeneration(account: AccountId, generation: Generation) returns (g: StagingGeneration)
      requires ReadState(port.records, account).activeGeneration != Some(generation)
      modifies port
      ensures fresh(g) && g.port == port && g.account == account && g.generation == generation
      ensures !g.settled && g.Hidden()
      ensures g.ItemTrio().baseline == g.ItemTrio().active && g.ItemTrio().staged == map[]
      ensures g.VaultTrio().baseline == g.VaultTrio().active && g.VaultTrio().staged == map[]
      ensures OnlyTouched(g.Collections())
      ensures forall a :: && View(a) == old(View(a))
                          && Shows(port.trace, |old(port.trace)|, |port.trace|, a, old(View(a)))
    {
      g := new StagingGeneration(port, account, generation);
      var active := ReadState(port.records, account).activeGeneration;
      Snapshot(port, account, generation, TableOf(port.records, Items(account, active)),
               TableOf(port.records, Vaults(account, active)));
      g.HiddenIsUnseen(old(port.records), account);
      UnseenTables(old(port.records), port.records, g.Collections(), account);
      g.WritesUnnoticed(old(port.trace), old(port.records), port.trace, port.records, g.Collections());
    }
  }

  lemma UnseenTables(r: Records, q: Records, cs: set<Collection>, account: AccountId)
    requires SameExcept(r, q, cs) && cs !! Visible(r, account)
    ensures ReadState(q, account) == ReadState(r, account)
    ensures forall c | c in Visible(r, account) :: TableOf(q, c) == TableOf(r, c)
  {
    assert Meta(account) in Visible(r, account);
  }

  /** Empties the collections of a generation and records the current cache as its baseline. */
  method Snapshot(port: RecordPort, account: AccountId, generation: Generation, items: Table, vaults: Table)
    modifies port
    ensures TableOf(port.records, Items(account, Some(generation))) == map[]
    ensures TableOf(port.records, Vaults(account, Some(generation))) == map[]
    ensures TableOf(port.records, ItemBaseline(account, generation)) == items
    ensures TableOf(port.records, VaultBaseline(account, generation)) == vaults
    ensures Wrote(old(port.trace), old(port.records), port.trace, port.records,
                  {Items(account, Some(generation)), Vaults(account, Some(generation)),
                   ItemBaseline(account, generation), VaultBaseline(account, generation)})
  {
    var bi, bv := ItemBaseline(account, generation), VaultBaseline(account, generation);
    var cs := [Items(account, Some(generation)), Vaults(account, Some(generation)), bi, bv];
    ClearAll(port, cs);
    assert cs[0] in cs && cs[1] in cs && cs[2] in cs && cs[3] in cs;
    assert map[] + items == items && map[] + vaults == vaults;
    ghost var r1, t1 := port.records, port.trace;
    PutTable(port, bi, items);
    ghost var r2, t2 := port.records, port.trace;
    PutTable(port, bv, vaults);
    WroteBoth(old(port.trace), old(port.records), t1, r1, t2, r2, Members(cs), {bi});
    WroteBoth(old(port.trace), old(port.records), t2, r2, port.trace, port.records, Members(cs) + {bi}, {bv});
    assert Members(cs) + {bi} + {bv} == {cs[0], cs[1], cs[2], cs[3]};
  }
}
