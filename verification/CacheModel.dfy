/**
 * What the item cache means: the records of the bulk store, what a reader makes of them, and the
 * three-way merge by which a finished bootstrap is published.
 */
module CacheModel {
  import opened Options

  type AccountId = nat
  type Id = nat
  type Generation = nat

  datatype Item = Item(id: Id, vaultId: Id, version: nat, blob: nat)
  datatype Vault = Vault(id: Id, name: nat)
  datatype Metadata = Metadata(lastFullSyncAt: nat, itemCount: nat, cacheVersion: nat)

  /** Which records belong together. No generation is the collection an account starts with. */
  datatype Collection =
    | Items(account: AccountId, generation: Option<Generation>)
    | Vaults(account: AccountId, generation: Option<Generation>)
    | ItemBaseline(account: AccountId, of: Generation)
    | VaultBaseline(account: AccountId, of: Generation)
    | Meta(account: AccountId)

  datatype NativeView = NativeView(v: nat, itemsPrefix: Collection, vaultsPrefix: Collection)

  datatype StateDocument = StateDocument(
    v: nat,
    itemsPrimed: bool,
    vaultsPrimed: bool,
    metadata: Option<Metadata>,
    activeGeneration: Option<Generation>,
    nativeView: NativeView)

  /**
   * A stored string. The same value can be spelled in several ways; what this cache writes
   * has spelling 0. Anything that does not parse is Corrupt.
   */
  datatype Text =
    | ItemText(item: Item, spelling: nat)
    | VaultText(vault: Vault, spelling: nat)
    | StateText(state: StateDocument)
    | Corrupt(bytes: nat)

  type Table = map<Id, Text>
  type Records = map<Collection, Table>

  const META_RECORD_ID: Id := 0
  const ITEM_CACHE_STATE_VERSION: nat := 2
  const ITEM_CACHE_NATIVE_VIEW_VERSION: nat := 1

  function TableOf(r: Records, c: Collection): Table {
    if c in r then r[c] else map[]
  }

  function Find<V>(m: map<Id, V>, id: Id): Option<V> {
    if id in m then Some(m[id]) else None
  }

  function ParsedItem(t: Text): Option<Item> {
    if t.ItemText? then Some(t.item) else None
  }

  // ---------------------------------------------------------------------------
  // Reading
  // ---------------------------------------------------------------------------

  function NativeViewFor(account: AccountId, generation: Option<Generation>): NativeView {
    NativeView(ITEM_CACHE_NATIVE_VIEW_VERSION, Items(account, generation), Vaults(account, generation))
  }

  function ColdState(account: AccountId): StateDocument {
    StateDocument(ITEM_CACHE_STATE_VERSION, false, false, None, None, NativeViewFor(account, None))
  }

  /** A missing, corrupt, outdated or inconsistent state record makes the account cold. */
  function StateIn(meta: Table, account: AccountId): StateDocument {
    if META_RECORD_ID !in meta || !meta[META_RECORD_ID].StateText? then ColdState(account)
    else
      var state := meta[META_RECORD_ID].state;
      if state.v != ITEM_CACHE_STATE_VERSION || state.nativeView.v != ITEM_CACHE_NATIVE_VIEW_VERSION then
        ColdState(account)
      else if state.nativeView != NativeViewFor(account, state.activeGeneration) then ColdState(account)
      else state
  }

  function ReadState(r: Records, account: AccountId): StateDocument {
    StateIn(TableOf(r, Meta(account)), account)
  }

  function ItemsIn(t: Table): map<Id, Item> {
    map id | id in t && t[id].ItemText? :: t[id].item
  }

  function VaultsIn(t: Table): map<Id, Vault> {
    map id | id in t && t[id].VaultText? :: t[id].vault
  }

  /** None is "never synced", an empty map is "synced, and there is nothing". */
  datatype View = View(items: Option<map<Id, Item>>, vaults: Option<map<Id, Vault>>, metadata: Option<Metadata>)

  function ViewOf(r: Records, account: AccountId): View {
    var state := ReadState(r, account);
    var items := TableOf(r, Items(account, state.activeGeneration));
    var vaults := TableOf(r, Vaults(account, state.activeGeneration));
    View(
      if items != map[] then Some(ItemsIn(items)) else if state.itemsPrimed then Some(map[]) else None,
      if vaults != map[] then Some(VaultsIn(vaults)) else if state.vaultsPrimed then Some(map[]) else None,
      state.metadata)
  }

  /** A state document this version of the cache wrote: its native view names the collections it is about. */
  predicate Consistent(state: StateDocument, account: AccountId) {
    && state.v == 2 && state.nativeView.v == 1
    && state.nativeView.itemsPrefix == Items(account, state.activeGeneration)
    && state.nativeView.vaultsPrefix == Vaults(account, state.activeGeneration)
  }

  /** A consistent state record is taken as it is; anything else reads as an account that was never synced. */
  lemma StateIs(meta: Table, account: AccountId)
    ensures Consistent(StateIn(meta, account), account)
    ensures if 0 in meta && meta[0].StateText? && Consistent(meta[0].state, account)
            then StateIn(meta, account) == meta[0].state
            else var s := StateIn(meta, account);
                 !s.itemsPrimed && !s.vaultsPrimed && s.metadata == None && s.activeGeneration == None
  {
  }

  /** What a reader gets of one collection: nothing if it is empty and was never written as a whole. */
  ghost predicate ReadsAs<V>(t: Table, primed: bool, records: map<Id, V>, view: Option<map<Id, V>>) {
    if t == map[] && !primed then view == None else view == Some(records)
  }

  /** Readers see the parseable records of the active generation, each under its id, and the metadata on record. */
  lemma ViewIs(r: Records, account: AccountId)
    ensures var state := StateIn(TableOf(r, Meta(account)), account);
            var items, vaults := TableOf(r, Items(account, state.activeGeneration)),
                                 TableOf(r, Vaults(account, state.activeGeneration));
            var view := ViewOf(r, account);
            && ReadsAs(items, state.itemsPrimed, ItemsIn(items), view.items)
            && ReadsAs(vaults, state.vaultsPrimed, VaultsIn(vaults), view.vaults)
            && view.metadata == state.metadata
            && (forall id :: Find(ItemsIn(items), id)
                             == if id in items && items[id].ItemText? then Some(items[id].item) else None)
            && (forall id :: Find(VaultsIn(vaults), id)
                             == if id in vaults && vaults[id].VaultText? then Some(vaults[id].vault) else None)
  {
    assert ItemsIn(map[]) == map[] && VaultsIn(map[]) == map[];
  }

  /** The collections a reader of this account looks at. */
  function Visible(r: Records, account: AccountId): set<Collection> {
    var generation := ReadState(r, account).activeGeneration;
    {Meta(account), Items(account, generation), Vaults(account, generation)}
  }

  /** Nothing outside these collections differs. */
  ghost predicate SameExcept(r: Records, q: Records, cs: set<Collection>) {
    forall c | c !in cs :: TableOf(r, c) == TableOf(q, c)
  }

  lemma UnseenChanges(r: Records, q: Records, cs: set<Collection>, account: AccountId)
    requires SameExcept(r, q, cs) && cs !! Visible(r, account)
    ensures ViewOf(q, account) == ViewOf(r, account) && Visible(q, account) == Visible(r, account)
  {
    assert Meta(account) !in cs;
    var generation := ReadState(r, account).activeGeneration;
    assert Items(account, generation) !in cs && Vaults(account, generation) !in cs;
  }

  // ---------------------------------------------------------------------------
  // Writing newer items
  // ---------------------------------------------------------------------------

  function Stringify(item: Item): Text {
    ItemText(item, 0)
  }

  predicate StoredIsNewer(existing: Option<Text>, item: Item) {
    existing.Some? && ParsedItem(existing.value).Some? && ParsedItem(existing.value).value.version > item.version
  }

  function Upserted(t: Table, item: Item): Table {
    if StoredIsNewer(Find(t, item.id), item) then t else t[item.id := Stringify(item)]
  }

  /** The upserts one after the other. */
  function UpsertedAll(t: Table, items: seq<Item>): Table
    decreases |items|
  {
    if items == [] then t else UpsertedAll(Upserted(t, items[0]), items[1..])
  }

  lemma {:induction false} UpsertedAllConcat(t: Table, p: seq<Item>, item: Item)
    ensures UpsertedAll(t, p + [item]) == Upserted(UpsertedAll(t, p), item)
    decreases |p|
  {
    if p == [] {
      assert p + [item] == [item];
    } else {
      assert (p + [item])[1..] == p[1..] + [item];
      UpsertedAllConcat(Upserted(t, p[0]), p[1..], item);
    }
  }

  /** Whether this item of the batch is the one that decides its id. */
  ghost predicate IsLastNewest(items: seq<Item>, k: int) {
    && 0 <= k < |items|
    && (forall j | 0 <= j < k && items[j].id == items[k].id :: items[j].version <= items[k].version)
    && (forall j | k < j < |items| && items[j].id == items[k].id :: items[j].version < items[k].version)
  }

  /** The batch leaves this id alone: nothing in it is as new as what is stored. */
  ghost predicate AllOlder(items: seq<Item>, id: Id, existing: Option<Text>) {
    forall j | 0 <= j < |items| && items[j].id == id :: StoredIsNewer(existing, items[j])
  }

  /** What a batch makes of one id: the stored record, or the last one of the highest version. */
  ghost predicate Decided(t: Table, items: seq<Item>, id: Id, result: Option<Text>) {
    || (result == Find(t, id) && AllOlder(items, id, Find(t, id)))
    || (exists k :: IsLastNewest(items, k) && items[k].id == id && result == Some(Stringify(items[k]))
                    && !StoredIsNewer(Find(t, id), items[k]))
  }

  lemma {:induction false} BatchDecides(t: Table, items: seq<Item>, id: Id)
    ensures Decided(t, items, id, Find(UpsertedAll(t, items), id))
    decreases |items|
  {
    if items != [] {
      var rest, last := items[..|items| - 1], items[|items| - 1];
      assert items == rest + [last];
      UpsertedAllConcat(t, rest, last);
      BatchDecides(t, rest, id);
      OneMore(t, rest, last, id, Find(UpsertedAll(t, rest), id));
    }
  }

  lemma OneMore(t: Table, rest: seq<Item>, last: Item, id: Id, result: Option<Text>)
    requires Decided(t, rest, id, result)
    ensures Decided(t, rest + [last], id,
                    if last.id == id && !StoredIsNewer(result, last) then Some(Stringify(last)) else result)
  {
    var items := rest + [last];
    if result == Find(t, id) && AllOlder(rest, id, Find(t, id)) {
      if last.id == id && !StoredIsNewer(result, last) {
        assert IsLastNewest(items, |rest|);
      }
    } else {
      var k :| IsLastNewest(rest, k) && rest[k].id == id && result == Some(Stringify(rest[k]))
               && !StoredIsNewer(Find(t, id), rest[k]);
      assert items[k] == rest[k];
      if last.id == id && !StoredIsNewer(result, last) {
        assert IsLastNewest(items, |rest|);
        assert items[|rest|] == last;
      } else {
        assert IsLastNewest(items, k);
      }
    }
  }

  /** Versions never go down under upserts, whatever the batch repeats. */
  lemma {:induction false} UpsertsNeverLowerVersions(t: Table, items: seq<Item>, id: Id)
    requires id in t && t[id].ItemText?
    ensures var after := UpsertedAll(t, items);
            && id in after && after[id].ItemText? && after[id].item.version >= t[id].item.version
    decreases |items|
  {
    if items != [] {
      UpsertsNeverLowerVersions(Upserted(t, items[0]), items[1..], id);
    }
  }

  function VaultsPut(t: Table, vaults: seq<Vault>): Table
    decreases |vaults|
  {
    if vaults == [] then t else VaultsPut(t[vaults[0].id := VaultText(vaults[0], 0)], vaults[1..])
  }

  /** A page of vaults by id: a repeated id keeps its last copy. */
  function LastCopies(vaults: seq<Vault>): map<Id, Vault> {
    if vaults == [] then map[]
    else
      var before := LastCopies(vaults[..|vaults| - 1]);
      before[vaults[|vaults| - 1].id := vaults[|vaults| - 1]]
  }

  /** The last copy of each id, and no other id. */
  lemma {:induction false} LastCopiesAre(vaults: seq<Vault>, id: Id)
    ensures id in LastCopies(vaults) <==> exists k :: 0 <= k < |vaults| && vaults[k].id == id
    ensures id in LastCopies(vaults) ==>
              exists k :: 0 <= k < |vaults| && LastCopies(vaults)[id] == vaults[k] && vaults[k].id == id
                          && forall j | k < j < |vaults| :: vaults[j].id != id
  {
    if vaults != [] {
      var rest, last := vaults[..|vaults| - 1], vaults[|vaults| - 1];
      LastCopiesAre(rest, id);
      if last.id != id && id in LastCopies(rest) {
        var k :| 0 <= k < |rest| && LastCopies(rest)[id] == rest[k] && rest[k].id == id
                 && forall j | k < j < |rest| :: rest[j].id != id;
        assert vaults[k] == rest[k];
      }
    }
  }

  function VaultTexts(vaults: map<Id, Vault>): Table {
    map id | id in vaults :: VaultText(vaults[id], 0)
  }

  lemma {:induction false} VaultsPutConcat(t: Table, p: seq<Vault>, vault: Vault)
    ensures VaultsPut(t, p + [vault]) == VaultsPut(t, p)[vault.id := VaultText(vault, 0)]
    decreases |p|
  {
    if p == [] {
      assert p + [vault] == [vault];
    } else {
      assert (p + [vault])[1..] == p[1..] + [vault];
      VaultsPutConcat(t[p[0].id := VaultText(p[0], 0)], p[1..], vault);
    }
  }

  /** Writing only the last copies is the same as putting every vault in turn. */
  lemma {:induction false} LastCopiesSuffice(t: Table, vaults: seq<Vault>)
    ensures VaultsPut(t, vaults) == t + VaultTexts(LastCopies(vaults))
    decreases |vaults|
  {
    if vaults != [] {
      var rest, last := vaults[..|vaults| - 1], vaults[|vaults| - 1];
      assert vaults == rest + [last];
      VaultsPutConcat(t, rest, last);
      LastCopiesSuffice(t, rest);
      assert VaultTexts(LastCopies(vaults)) == VaultTexts(LastCopies(rest))[last.id := VaultText(last, 0)];
    } else {
      assert VaultTexts(map[]) == map[];
    }
  }

  // ---------------------------------------------------------------------------
  // Promotion
  // ---------------------------------------------------------------------------

  /** The three tables of one kind: as the bootstrap began, as they are now, as the bootstrap staged them. */
  datatype Trio = Trio(baseline: Table, active: Table, staged: Table)

  /** Whether the active record is kept over the staged one. */
  predicate KeepsActive(t: Trio, id: Id) {
    && id in t.active && t.active[id].ItemText?
    && (|| Find(t.baseline, id) != Some(t.active[id])
        || (id in t.staged && t.staged[id].ItemText? && t.active[id].item.version > t.staged[id].item.version))
  }

  /** The promoted record of one item, before vaults are taken into account. */
  function Reconciled(t: Trio, id: Id): Option<Text> {
    if id in t.baseline && id !in t.active then None
    else if KeepsActive(t, id) then Some(t.active[id])
    else Find(t.staged, id)
  }

  function ReconciledVault(t: Trio, id: Id): Option<Text> {
    if id in t.baseline && id !in t.active then None
    else if id in t.active && Find(t.baseline, id) != Some(t.active[id]) then Some(t.active[id])
    else Find(t.staged, id)
  }

  /** The vaults deleted here while the bootstrap ran. */
  function DeletedVaults(v: Trio): set<Id> {
    v.baseline.Keys - v.active.Keys
  }

  predicate InDeletedVault(text: Text, deleted: set<Id>) {
    text.ItemText? && text.item.vaultId in deleted
  }

  function ReconciledItems(t: Trio): Table {
    map id | id in t.active.Keys + t.staged.Keys && Reconciled(t, id).Some? :: Reconciled(t, id).value
  }

  function PromotedItems(t: Trio, v: Trio): Table {
    var items := ReconciledItems(t);
    map id | id in items && !InDeletedVault(items[id], DeletedVaults(v)) :: items[id]
  }

  function PromotedVaults(v: Trio): Table {
    map id | id in v.active.Keys + v.staged.Keys && ReconciledVault(v, id).Some? :: ReconciledVault(v, id).value
  }

  /** Local deletes stay deleted, and so do the items of a vault deleted here. */
  lemma DeletesStayDeleted(t: Trio, v: Trio, id: Id)
    ensures id in t.baseline && id !in t.active ==> id !in PromotedItems(t, v)
    ensures id in v.baseline && id !in v.active ==>
              id !in PromotedVaults(v)
              && forall i | i in PromotedItems(t, v) && PromotedItems(t, v)[i].ItemText? ::
                   PromotedItems(t, v)[i].item.vaultId != id
  {
  }

  /** A parseable item changed or added here since the baseline survives as it is, unless its vault was deleted. */
  lemma LocalEditsSurvive(t: Trio, v: Trio, id: Id)
    requires id in t.active && t.active[id].ItemText? && Find(t.baseline, id) != Some(t.active[id])
    ensures if t.active[id].item.vaultId in DeletedVaults(v) then id !in PromotedItems(t, v)
            else Find(PromotedItems(t, v), id) == Some(t.active[id])
  {
  }

  /** An item nobody touched here takes the staged record, or vanishes if the bootstrap did not bring it. */
  lemma UntouchedTakesStaged(t: Trio, v: Trio, id: Id)
    requires Find(t.baseline, id) == Find(t.active, id)
    requires id in t.active && t.active[id].ItemText? && id in t.staged && t.staged[id].ItemText? ==>
               t.active[id].item.version <= t.staged[id].item.version
    ensures Find(PromotedItems(t, v), id)
         == if id in t.staged && !InDeletedVault(t.staged[id], DeletedVaults(v)) then Some(t.staged[id]) else None
  {
  }

  /** A vault changed or added here since the baseline is published exactly as it is. */
  lemma VaultEditsSurvive(v: Trio, id: Id)
    requires id in v.active && Find(v.baseline, id) != Some(v.active[id])
    ensures Find(PromotedVaults(v), id) == Some(v.active[id])
  {
  }

  /** A vault nobody touched here takes the staged record, or vanishes if the bootstrap did not bring it. */
  lemma UntouchedVaultTakesStaged(v: Trio, id: Id)
    requires Find(v.baseline, id) == Find(v.active, id)
    ensures Find(PromotedVaults(v), id) == Find(v.staged, id)
  {
  }

  /** No surviving item falls below the version readers saw before. */
  lemma VersionsNeverFall(t: Trio, v: Trio, id: Id)
    requires id in ItemsIn(t.active) && id in ItemsIn(PromotedItems(t, v))
    ensures ItemsIn(PromotedItems(t, v))[id].version >= ItemsIn(t.active)[id].version
  {
  }

  /** Each promoted record is one of the two candidates, never a mixture. */
  lemma PromotedIsActiveOrStaged(t: Trio, v: Trio, id: Id)
    requires id in PromotedItems(t, v)
    ensures Some(PromotedItems(t, v)[id]) in {Find(t.active, id), Find(t.staged, id)}
  {
  }
}
