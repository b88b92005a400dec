/**
 * The account store: the accounts list, the active account, biometric flags, lock timeouts and the cache
 * of unlocked keys, together with the projection of them that a native host reads.
 */
module AccountStore {
  import opened Options

  type AccountId = nat
  type KeyRef = nat

  const DEFAULT_AUTO_LOCK_TIMEOUT_MS: nat := 10 * 60 * 1000

  /** serverUrl 0 is an empty url; profile stands for the fields that are only passed through. */
  datatype Account = Account(
    id: AccountId,
    serverUrl: nat,
    userId: nat,
    profile: nat,
    lastActiveAt: nat,
    biometricEnabled: bool,
    insecureTransportConfirmed: Option<bool>)

  datatype Projected = Projected(id: AccountId, userId: nat, profile: nat, lastActiveAt: nat, biometricEnabled: bool)

  datatype NativeView = NativeView(
    activeAccount: Option<AccountId>,
    unlocked: seq<AccountId>,
    autoLockTimeoutMs: nat,
    accounts: seq<Projected>)

  datatype Entry = Entry(account: AccountId, key: KeyRef)

  // ---------------------------------------------------------------------------
  // The accounts list
  // ---------------------------------------------------------------------------

  predicate Readable(a: Account) {
    a.serverUrl != 0 && a.insecureTransportConfirmed.Some?
  }

  /** A stored list with one unreadable account reads as no accounts at all. */
  function ReadList(stored: seq<Account>): seq<Account> {
    if forall a | a in stored :: Readable(a) then stored else []
  }

  function AccountIds(list: seq<Account>): set<AccountId> {
    if list == [] then {} else {list[0].id} + AccountIds(list[1..])
  }

  ghost predicate UniqueIds(list: seq<Account>) {
    list != [] ==> list[0].id !in AccountIds(list[1..]) && UniqueIds(list[1..])
  }

  /** The place of an account, or the length of the list. */
  function IndexById(list: seq<Account>, id: AccountId): (i: nat)
    ensures i <= |list| && (i < |list| ==> list[i].id == id)
    ensures i == |list| <==> id !in AccountIds(list)
  {
    if list == [] || list[0].id == id then 0 else 1 + IndexById(list[1..], id)
  }

  function IndexByServerUser(list: seq<Account>, serverUrl: nat, userId: nat): (i: nat)
    ensures i <= |list| && (i < |list| ==> list[i].serverUrl == serverUrl && list[i].userId == userId)
  {
    if list == [] || (list[0].serverUrl == serverUrl && list[0].userId == userId) then 0
    else 1 + IndexByServerUser(list[1..], serverUrl, userId)
  }

  function WithoutAccount(list: seq<Account>, id: AccountId): seq<Account> {
    if list == [] then []
    else (if list[0].id == id then [] else [list[0]]) + WithoutAccount(list[1..], id)
  }

  /** Every listed account carries the flag that is stored for it. */
  ghost predicate Mirrors(list: seq<Account>, biometric: map<AccountId, bool>) {
    forall a | a in list :: a.biometricEnabled == Enabled(biometric, a.id)
  }

  function Enabled(biometric: map<AccountId, bool>, id: AccountId): bool {
    id in biometric && biometric[id]
  }

  lemma {:induction false} IdsMember(list: seq<Account>, i: nat)
    requires i < |list|
    ensures list[i].id in AccountIds(list)
  {
    if i > 0 {
      IdsMember(list[1..], i - 1);
    }
  }

  lemma {:induction false} UniqueAt(list: seq<Account>, i: nat, j: nat)
    requires UniqueIds(list) && i < j < |list|
    ensures list[i].id != list[j].id
  {
    if i == 0 {
      IdsMember(list[1..], j - 1);
    } else {
      UniqueAt(list[1..], i - 1, j - 1);
    }
  }

  lemma {:induction false} ReplacedUnique(list: seq<Account>, i: nat, a: Account)
    requires UniqueIds(list) && i < |list| && list[i].id == a.id
    ensures UniqueIds(list[i := a]) && AccountIds(list[i := a]) == AccountIds(list)
  {
    if i > 0 {
      assert list[i := a][1..] == list[1..][i - 1 := a];
      ReplacedUnique(list[1..], i - 1, a);
    } else {
      assert list[0 := a][1..] == list[1..];
    }
  }

  lemma {:induction false} AppendedUnique(list: seq<Account>, a: Account)
    requires UniqueIds(list) && a.id !in AccountIds(list)
    ensures UniqueIds(list + [a]) && AccountIds(list + [a]) == AccountIds(list) + {a.id}
  {
    if list != [] {
      assert (list + [a])[1..] == list[1..] + [a];
      AppendedUnique(list[1..], a);
    } else {
      assert list + [a] == [a];
    }
  }

  lemma {:induction false} WithoutAccountIs(list: seq<Account>, id: AccountId)
    ensures AccountIds(WithoutAccount(list, id)) == AccountIds(list) - {id}
    ensures UniqueIds(list) ==> UniqueIds(WithoutAccount(list, id))
  {
    if list != [] {
      WithoutAccountIs(list[1..], id);
      var rest := WithoutAccount(list[1..], id);
      if list[0].id == id {
        assert WithoutAccount(list, id) == rest;
        assert AccountIds(list) - {id} == AccountIds(list[1..]) - {id};
      } else {
        assert WithoutAccount(list, id) == [list[0]] + rest && ([list[0]] + rest)[1..] == rest;
        assert AccountIds(list) - {id} == {list[0].id} + (AccountIds(list[1..]) - {id});
      }
    }
  }

  /** Removing the account at i closes the gap; removing an unlisted one changes nothing. */
  lemma {:induction false} WithoutAccountAt(list: seq<Account>, i: nat)
    requires UniqueIds(list) && i < |list|
    ensures WithoutAccount(list, list[i].id) == list[..i] + list[i + 1..]
  {
    if i > 0 {
      UniqueAt(list, 0, i);
      WithoutAccountAt(list[1..], i - 1);
      hide UniqueIds;
      CutBehindFirst(list, i);
    } else {
      WithoutAbsent(list[1..], list[0].id);
      assert list[..0] + list[1..] == list[1..];
    }
  }

  lemma {:induction false} WithoutAbsent(list: seq<Account>, id: AccountId)
    requires id !in AccountIds(list)
    ensures WithoutAccount(list, id) == list
  {
    if list != [] {
      WithoutAbsent(list[1..], id);
    }
  }

  lemma CutBehindFirst<T>(s: seq<T>, i: nat)
    requires 0 < i < |s|
    ensures s[..i] + s[i + 1..] == [s[0]] + (s[1..][..i - 1] + s[1..][i..])
  {
  }

  lemma {:induction false} WithoutAccountMembers(list: seq<Account>, id: AccountId)
    ensures forall a | a in WithoutAccount(list, id) :: a in list && a.id != id
  {
    if list != [] {
      WithoutAccountMembers(list[1..], id);
    }
  }

  lemma OthersElsewhere(accounts: seq<Account>, i: nat, next: Account)
    requires UniqueIds(accounts) && i < |accounts| && accounts[i].id == next.id
    ensures accounts[i := next][i] == next
    ensures forall a | a in accounts[i := next] :: a == next || (a in accounts && a.id != next.id)
    ensures forall a | a in accounts && a.id != next.id :: a in accounts[i := next]
  {
    forall a | a in accounts && a.id != next.id ensures a in accounts[i := next] {
      var j :| 0 <= j < |accounts| && accounts[j] == a;
      assert accounts[i := next][j] == a;
    }
    forall j | 0 <= j < |accounts| && j != i ensures accounts[j].id != next.id {
      if j < i {
        UniqueAt(accounts, j, i);
      } else {
        UniqueAt(accounts, i, j);
      }
    }
  }

  /**
   * Which account a new one replaces: the one with its id, else the first one of the same user at the same
   * server, if both are given; if there is neither, it is added under its own id.
   */
  ghost predicate Replaces(accounts: seq<Account>, metadata: Account, id: AccountId) {
    if exists a :: a in accounts && a.id == metadata.id then id == metadata.id
    else if exists a :: a in accounts && SameUser(a, metadata) then
      exists i :: && 0 <= i < |accounts| && SameUser(accounts[i], metadata) && accounts[i].id == id
                  && forall j | 0 <= j < i :: !SameUser(accounts[j], metadata)
    else id == metadata.id
  }

  predicate SameUser(a: Account, b: Account) {
    b.serverUrl != 0 && b.userId != 0 && a.serverUrl == b.serverUrl && a.userId == b.userId
  }

  /** Every other account keeps its place; the one with this id keeps its place or, if it is new, comes last. */
  ghost predicate InPlace(accounts: seq<Account>, after: seq<Account>, id: AccountId) {
    && |after| == |accounts| + (if id in AccountIds(accounts) then 0 else 1)
    && (forall j | 0 <= j < |accounts| && accounts[j].id != id :: after[j] == accounts[j])
    && (id !in AccountIds(accounts) ==> after[|accounts|].id == id)
  }

  lemma {:induction false} FirstOfUser(accounts: seq<Account>, serverUrl: nat, userId: nat)
    ensures var i := IndexByServerUser(accounts, serverUrl, userId);
            forall j | 0 <= j < i :: !(accounts[j].serverUrl == serverUrl && accounts[j].userId == userId)
  {
    if accounts != [] && !(accounts[0].serverUrl == serverUrl && accounts[0].userId == userId) {
      FirstOfUser(accounts[1..], serverUrl, userId);
    }
  }

  /** The place of the account that a new one replaces, or the length of the list. */
  function PlaceFor(accounts: seq<Account>, metadata: Account): (i: nat)
    ensures i <= |accounts| && (i == |accounts| ==> metadata.id !in AccountIds(accounts))
  {
    var byId := IndexById(accounts, metadata.id);
    if byId == |accounts| && metadata.serverUrl != 0 && metadata.userId != 0 then
      IndexByServerUser(accounts, metadata.serverUrl, metadata.userId)
    else byId
  }

  /** Looking up by id and then by server and user finds the account to replace. */
  lemma LookupReplaces(accounts: seq<Account>, metadata: Account)
    ensures var i := PlaceFor(accounts, metadata);
            Replaces(accounts, metadata, if i < |accounts| then accounts[i].id else metadata.id)
  {
    var i := PlaceFor(accounts, metadata);
    FirstOfUser(accounts, metadata.serverUrl, metadata.userId);
    if metadata.id !in AccountIds(accounts) {
      NotListed(accounts, metadata.id);
      hide AccountIds;
      assert i < |accounts| ==> accounts[i] in accounts && SameUser(accounts[i], metadata);
    } else {
      assert i < |accounts| && accounts[i] in accounts;
    }
  }

  lemma NotListed(accounts: seq<Account>, id: AccountId)
    requires id !in AccountIds(accounts)
    ensures forall a | a in accounts :: a.id != id
  {
    forall j | 0 <= j < |accounts| ensures accounts[j].id != id {
      IdsMember(accounts, j);
    }
  }

  /** Replacing the account at i, or appending a new one. */
  lemma Placed(accounts: seq<Account>, after: seq<Account>, i: nat, next: Account)
    requires UniqueIds(accounts) && i <= |accounts|
    requires after == if i < |accounts| then accounts[i := next] else accounts + [next]
    requires if i < |accounts| then accounts[i].id == next.id else next.id !in AccountIds(accounts)
    ensures UniqueIds(after) && InPlace(accounts, after, next.id) && next in after
    ensures forall a | a != next :: a in after <==> a in accounts && a.id != next.id
  {
    if i < |accounts| {
      IdsMember(accounts, i);
      ReplacedUnique(accounts, i, next);
      OthersElsewhere(accounts, i, next);
    } else {
      AppendedUnique(accounts, next);
      NotListed(accounts, next.id);
      assert after[i] == next;
    }
  }

  /** A list whose accounts are this one, mirroring its new flag, and others mirroring unchanged flags. */
  lemma StillMirrors(
    accounts: seq<Account>, after: seq<Account>, next: Account,
    before: map<AccountId, bool>, now: map<AccountId, bool>)
    requires Mirrors(accounts, before) && next.biometricEnabled == Enabled(now, next.id)
    requires forall a | a in after :: a == next || (a in accounts && a.id != next.id)
    requires forall id | id != next.id :: Enabled(now, id) == Enabled(before, id)
    ensures Mirrors(after, now) && Mirrors(ReadList(after), now)
  {
  }

  lemma ReadListIsReadable(list: seq<Account>)
    ensures ReadList(ReadList(list)) == ReadList(list)
    ensures forall a | a in ReadList(list) :: Readable(a)
  {
  }

  /** A list with one new account in it reads as a whole or, if that account is unreadable, not at all. */
  lemma ReadBack(accounts: seq<Account>, after: seq<Account>, next: Account)
    requires forall a | a in accounts :: Readable(a)
    requires next in after && forall a | a in after :: a == next || a in accounts
    ensures ReadList(after) == if Readable(next) then after else []
  {
  }

  lemma ReadableUnique(list: seq<Account>)
    requires UniqueIds(list)
    ensures UniqueIds(ReadList(list))
  {
  }

  lemma RemovedMirrors(accounts: seq<Account>, id: AccountId, before: map<AccountId, bool>)
    requires Mirrors(accounts, before)
    ensures Mirrors(ReadList(WithoutAccount(accounts, id)), before - {id})
  {
    WithoutAccountMembers(accounts, id);
    FewerMirror(accounts, WithoutAccount(accounts, id), before);
    OthersMirror(WithoutAccount(accounts, id), id, before, before - {id});
  }

  lemma FewerMirror(accounts: seq<Account>, fewer: seq<Account>, biometric: map<AccountId, bool>)
    requires Mirrors(accounts, biometric) && forall a | a in fewer :: a in accounts
    ensures Mirrors(fewer, biometric)
  {
  }

  lemma OthersMirror(
    accounts: seq<Account>, id: AccountId, before: map<AccountId, bool>, now: map<AccountId, bool>)
    requires Mirrors(accounts, before) && forall a | a in accounts :: a.id != id
    requires forall a | a != id :: Enabled(now, a) == Enabled(before, a)
    ensures Mirrors(accounts, now) && Mirrors(ReadList(accounts), now)
  {
  }

  // ---------------------------------------------------------------------------
  // The cache of unlocked keys, in the order of a JavaScript Map
  // ---------------------------------------------------------------------------

  function KeyOf(cache: seq<Entry>, id: AccountId): Option<KeyRef> {
    if cache == [] then None else if cache[0].account == id then Some(cache[0].key) else KeyOf(cache[1..], id)
  }

  function Put(cache: seq<Entry>, id: AccountId, key: KeyRef): seq<Entry> {
    if cache == [] then [Entry(id, key)]
    else if cache[0].account == id then [Entry(id, key)] + cache[1..]
    else [cache[0]] + Put(cache[1..], id, key)
  }

  function Drop(cache: seq<Entry>, id: AccountId): seq<Entry> {
    if cache == [] then []
    else if cache[0].account == id then cache[1..]
    else [cache[0]] + Drop(cache[1..], id)
  }

  function Set(cache: seq<Entry>, id: AccountId, entry: Option<KeyRef>): seq<Entry> {
    if entry.Some? then Put(cache, id, entry.value) else Drop(cache, id)
  }

  function Unlocked(cache: seq<Entry>): seq<AccountId> {
    if cache == [] then [] else [cache[0].account] + Unlocked(cache[1..])
  }

  function Keys(cache: seq<Entry>): set<KeyRef> {
    if cache == [] then {} else {cache[0].key} + Keys(cache[1..])
  }

  ghost predicate OnePerAccount(cache: seq<Entry>) {
    cache != [] ==> KeyOf(cache[1..], cache[0].account) == None && OnePerAccount(cache[1..])
  }

  /** The order of ids after adding to or deleting from a Set of the cached ones. */
  function NextUnlocked(ids: seq<AccountId>, id: AccountId, present: bool): seq<AccountId> {
    if ids == [] then (if present then [id] else [])
    else if ids[0] == id then (if present then ids else ids[1..])
    else [ids[0]] + NextUnlocked(ids[1..], id, present)
  }

  lemma {:induction false} UnlockedAfterSet(cache: seq<Entry>, id: AccountId, entry: Option<KeyRef>)
    ensures Unlocked(Set(cache, id, entry)) == NextUnlocked(Unlocked(cache), id, entry.Some?)
  {
    if cache != [] && cache[0].account != id {
      UnlockedAfterSet(cache[1..], id, entry);
    }
  }

  /** The order of a Map: an account that is cached keeps its place, a new one comes last. */
  lemma {:induction false} PutKeepsOrder(cache: seq<Entry>, id: AccountId, key: KeyRef)
    ensures Unlocked(Put(cache, id, key))
         == if KeyOf(cache, id).Some? then Unlocked(cache) else Unlocked(cache) + [id]
  {
    if cache != [] && cache[0].account != id {
      PutKeepsOrder(cache[1..], id, key);
    }
  }

  /** A deleted one leaves no gap. */
  lemma {:induction false} DropAt(cache: seq<Entry>, id: AccountId, i: nat)
    requires OnePerAccount(cache) && i < |cache| && cache[i].account == id
    ensures Drop(cache, id) == cache[..i] + cache[i + 1..]
  {
    if i > 0 {
      var rest := cache[1..];
      KeyAt(rest, i - 1);
      DropAt(rest, id, i - 1);
      hide OnePerAccount, KeyOf;
      CutBehindFirst(cache, i);
    }
  }

  lemma {:induction false} DropAbsent(cache: seq<Entry>, id: AccountId)
    requires KeyOf(cache, id).None?
    ensures Drop(cache, id) == cache
  {
    if cache != [] {
      DropAbsent(cache[1..], id);
    }
  }

  lemma {:induction false} KeyAt(cache: seq<Entry>, i: nat)
    requires i < |cache|
    ensures KeyOf(cache, cache[i].account).Some?
    ensures OnePerAccount(cache) ==> KeyOf(cache, cache[i].account) == Some(cache[i].key)
  {
    if i > 0 {
      KeyAt(cache[1..], i - 1);
    }
  }

  lemma {:induction false} SetIs(cache: seq<Entry>, id: AccountId, entry: Option<KeyRef>)
    requires OnePerAccount(cache)
    ensures OnePerAccount(Set(cache, id, entry)) && KeyOf(Set(cache, id, entry), id) == entry
    ensures forall a | a != id :: KeyOf(Set(cache, id, entry), a) == KeyOf(cache, a)
    ensures Keys(Set(cache, id, entry)) == Keys(Drop(cache, id)) + (if entry.Some? then {entry.value} else {})
  {
    if cache != [] && cache[0].account != id {
      SetIs(cache[1..], id, entry);
    }
  }

  lemma {:induction false} KeyIsCached(cache: seq<Entry>, id: AccountId)
    ensures KeyOf(cache, id).Some? ==> KeyOf(cache, id).value in Keys(cache)
    ensures Keys(cache) == Keys(Drop(cache, id)) + (if KeyOf(cache, id).Some? then {KeyOf(cache, id).value} else {})
  {
    if cache != [] && cache[0].account != id {
      KeyIsCached(cache[1..], id);
    }
  }

  /** The key that setting an entry displaces. */
  function Displaced(cache: seq<Entry>, id: AccountId, entry: Option<KeyRef>): set<KeyRef> {
    var previous := KeyOf(cache, id);
    if previous.Some? && previous != entry then {previous.value} else {}
  }

  /**
   * When no cached key has been destroyed, setting an entry keeps it that way exactly if the displaced key
   * is not cached under another account and the new key was not destroyed before.
   */
  lemma CachedKeysSurviveIff(cache: seq<Entry>, destroyed: set<KeyRef>, id: AccountId, entry: Option<KeyRef>)
    requires OnePerAccount(cache) && Keys(cache) !! destroyed
    ensures Keys(Set(cache, id, entry)) !! destroyed + Displaced(cache, id, entry)
       <==> && Displaced(cache, id, entry) !! Keys(Drop(cache, id))
            && (entry.Some? ==> entry.value !in destroyed)
  {
    SetIs(cache, id, entry);
    KeyIsCached(cache, id);
  }

  ghost predicate DistinctKeys(cache: seq<Entry>) {
    cache != [] ==> cache[0].key !in Keys(cache[1..]) && DistinctKeys(cache[1..])
  }

  lemma {:induction false} SetKeepsDistinct(cache: seq<Entry>, id: AccountId, entry: Option<KeyRef>)
    requires DistinctKeys(cache) && OnePerAccount(cache)
    requires entry.Some? ==> entry.value !in Keys(Drop(cache, id))
    ensures DistinctKeys(Set(cache, id, entry))
    ensures Displaced(cache, id, entry) !! Keys(Drop(cache, id))
  {
    if cache != [] && cache[0].account != id {
      SetKeepsDistinct(cache[1..], id, entry);
      SetIs(cache[1..], id, entry);
      KeyIsCached(cache[1..], id);
    }
  }

  /** The key is handed in for the first time, or is the one this account has already; none always qualifies. */
  predicate NewOrOwn(cache: seq<Entry>, destroyed: set<KeyRef>, id: AccountId, entry: Option<KeyRef>) {
    entry.Some? ==>
      KeyOf(cache, id) == entry || (entry.value !in Keys(cache) && entry.value !in destroyed)
  }

  lemma NewOrOwnStaysAlive(cache: seq<Entry>, destroyed: set<KeyRef>, id: AccountId, entry: Option<KeyRef>)
    requires OnePerAccount(cache) && DistinctKeys(cache) && Keys(cache) !! destroyed
    requires NewOrOwn(cache, destroyed, id, entry)
    ensures DistinctKeys(Set(cache, id, entry))
    ensures Keys(Set(cache, id, entry)) !! destroyed + Displaced(cache, id, entry)
  {
    KeyIsCached(cache, id);
    if KeyOf(cache, id) == entry && entry.Some? {
      OwnKeyNotElsewhere(cache, id);
    }
    SetKeepsDistinct(cache, id, entry);
    CachedKeysSurviveIff(cache, destroyed, id, entry);
  }

  lemma {:induction false} OwnKeyNotElsewhere(cache: seq<Entry>, id: AccountId)
    requires DistinctKeys(cache) && KeyOf(cache, id).Some?
    ensures KeyOf(cache, id).value !in Keys(Drop(cache, id))
  {
    if cache[0].account != id {
      OwnKeyNotElsewhere(cache[1..], id);
      KeyIsCached(cache[1..], id);
    }
  }

  /** One key cached under two accounts: locking the first destroys what the second still holds. */
  lemma SharedKeyIsDestroyed()
    ensures var cache := Put(Put([], 1, 7), 2, 7);
            && OnePerAccount(cache) && Keys(cache) !! {}
            && !(Keys(Set(cache, 1, None)) !! Displaced(cache, 1, None))
  {
    var cache := [Entry(1, 7), Entry(2, 7)];
    assert Put([], 1, 7) == [Entry(1, 7)];
    assert Put([Entry(1, 7)], 2, 7) == cache;
    assert cache[1..] == [Entry(2, 7)];
    assert Drop(cache, 1) == [Entry(2, 7)];
    assert 7 in Keys([Entry(2, 7)]);
  }

  // ---------------------------------------------------------------------------
  // The projection
  // ---------------------------------------------------------------------------

  function Project(a: Account, biometric: map<AccountId, bool>): Projected {
    Projected(a.id, a.userId, a.profile, a.lastActiveAt, Enabled(biometric, a.id))
  }

  function ProjectAll(list: seq<Account>, biometric: map<AccountId, bool>): seq<Projected> {
    if list == [] then []
    else ProjectAll(list[..|list| - 1], biometric) + [Project(list[|list| - 1], biometric)]
  }

  function TimeoutOf(active: Option<AccountId>, timeouts: map<AccountId, nat>): nat {
    if active.Some? && active.value in timeouts then timeouts[active.value] else DEFAULT_AUTO_LOCK_TIMEOUT_MS
  }

  /** What the native host is shown of an account: its own fields, and the stored flag rather than the mirrored one. */
  predicate ShownAs(p: Projected, a: Account, biometric: map<AccountId, bool>) {
    && p.id == a.id && p.userId == a.userId && p.profile == a.profile && p.lastActiveAt == a.lastActiveAt
    && (p.biometricEnabled <==> a.id in biometric && biometric[a.id])
  }

  /** One entry per listed account, in list order. */
  lemma {:induction false} AllShown(list: seq<Account>, biometric: map<AccountId, bool>)
    ensures |ProjectAll(list, biometric)| == |list|
    ensures forall i | 0 <= i < |list| :: ShownAs(ProjectAll(list, biometric)[i], list[i], biometric)
  {
    if list != [] {
      AllShown(list[..|list| - 1], biometric);
    }
  }

  class Store {
    var list: seq<Account>
    var active: Option<AccountId>
    var biometric: map<AccountId, bool>
    var timeouts: map<AccountId, nat>
    var sessions: map<AccountId, bool>
    var cache: seq<Entry>
    var view: Option<NativeView>
    ghost var destroyed: set<KeyRef>

    ghost predicate Valid()
      reads this
    {
      UniqueIds(list) && OnePerAccount(cache)
    }

    ghost function Live(unlocked: seq<AccountId>): NativeView
      reads this
    {
      NativeView(active, unlocked, TimeoutOf(active, timeouts), ProjectAll(ReadList(list), biometric))
    }

    /** What the native host reads is what the store holds. */
    ghost predicate Published()
      reads this
    {
      view == Some(Live(Unlocked(cache)))
    }

    /** No cached key has been destroyed, and no key is cached twice. */
    ghost predicate KeysAlive()
      reads this
    {
      DistinctKeys(cache) && Keys(cache) !! destroyed
    }

    ghost predicate Mirrored()
      reads this
    {
      Mirrors(ReadList(list), biometric)
    }

    constructor ()
      ensures Valid() && Published() && Mirrored() && KeysAlive() && destroyed == {} && cache == [] && list == []
      ensures active == None && biometric == map[] && timeouts == map[] && sessions == map[]
    {
      list, active, biometric, timeouts, sessions, cache := [], None, map[], map[], map[], [];
      destroyed := {};
      view := None;
      new;
      RefreshNativeView(Unlocked(cache));
    }

    /** Rewrites the published projection from scratch. */
    method RefreshNativeView(unlocked: seq<AccountId>)
      modifies this`view
      ensures view == Some(Live(unlocked))
      ensures view.value.activeAccount == active && view.value.unlocked == unlocked
      ensures view.value.autoLockTimeoutMs
           == if active.None? || active.value !in timeouts then 600_000 else timeouts[active.value]
      ensures |view.value.accounts| == |ReadList(list)|
      ensures forall i | 0 <= i < |ReadList(list)| ::
                ShownAs(view.value.accounts[i], ReadList(list)[i], biometric)
    {
      AllShown(ReadList(list), biometric);
      var accounts := ReadList(list);
      var projected := [];
      for i := 0 to |accounts|
        invariant projected == ProjectAll(accounts[..i], biometric)
      {
        assert accounts[..i + 1][..i] == accounts[..i];
        projected := projected + [Project(accounts[i], biometric)];
      }
      assert accounts[..|accounts|] == accounts;
      view := Some(NativeView(active, unlocked, TimeoutOf(active, timeouts), projected));
    }

    /** The single mutation point of the unlocked set: projection, destruction of the displaced key, cache. */
    method SetUnlockEntry(id: AccountId, entry: Option<KeyRef>)
      requires Valid()
      modifies this`view, this`cache, this`destroyed
      ensures Valid() && Published()
      ensures cache == Set(old(cache), id, entry) && KeyOf(cache, id) == entry
      ensures destroyed == old(destroyed) + Displaced(old(cache), id, entry)
      ensures old(KeysAlive()) && NewOrOwn(old(cache), old(destroyed), id, entry) ==> KeysAlive()
    {
      if KeysAlive() && NewOrOwn(cache, destroyed, id, entry) {
        NewOrOwnStaysAlive(cache, destroyed, id, entry);
      }
      var previous := KeyOf(cache, id);
      RefreshNativeView(NextUnlocked(Unlocked(cache), id, entry.Some?));
      if previous.Some? && previous != entry {
        destroyed := destroyed + {previous.value};
      }
      UnlockedAfterSet(cache, id, entry);
      SetIs(cache, id, entry);
      cache := if entry.Some? then Put(cache, id, entry.value) else Drop(cache, id);
    }

    method WriteAccountsList(accounts: seq<Account>)
      requires UniqueIds(accounts) && OnePerAccount(cache)
      modifies this`list, this`view
      ensures Valid() && Published() && list == accounts
    {
      list := accounts;
      RefreshNativeView(Unlocked(cache));
    }

    method WriteActiveAccount(id: Option<AccountId>)
      modifies this`active, this`view
      ensures Published() && active == id
    {
      active := id;
      RefreshNativeView(Unlocked(cache));
    }

    method SetActiveAccount(id: Option<AccountId>, now: nat)
      requires Valid() && Mirrored()
      modifies this`active, this`list, this`view
      ensures Valid() && Published() && Mirrored() && active == id
      ensures var accounts := old(ReadList(list));
              id.Some? && id.value in AccountIds(accounts) ==>
                var i := IndexById(accounts, id.value);
                list == accounts[i := accounts[i].(lastActiveAt := now)]
      ensures id.None? || id.value !in AccountIds(old(ReadList(list))) ==> list == old(list)
    {
      WriteActiveAccount(id);
      if id.Some? {
        var accounts := ReadList(list);
        var i := IndexById(accounts, id.value);
        if i < |accounts| {
          ReplacedUnique(accounts, i, accounts[i].(lastActiveAt := now));
          WriteAccountsList(accounts[i := accounts[i].(lastActiveAt := now)]);
        }
      }
    }

    /**
     * Adds an account, or replaces the one with its id or its server and user. The stored biometric flag
     * wins over the supplied one; a new account seeds it.
     */
    method AddAccount(metadata: Account) returns (id: AccountId)
      requires Valid() && Mirrored()
      modifies this`list, this`biometric, this`view
      ensures Valid() && Published() && Mirrored()
      ensures Replaces(old(ReadList(list)), metadata, id)
      ensures biometric == if id in old(biometric) then old(biometric)
                           else old(biometric)[id := metadata.biometricEnabled]
      ensures InPlace(old(ReadList(list)), list, id)
      ensures var next := metadata.(id := id, biometricEnabled := Enabled(biometric, id));
              && next in list && (forall a | a != next :: a in list <==> a in old(ReadList(list)) && a.id != id)
              && ReadList(list)
                 == if metadata.serverUrl == 0 || metadata.insecureTransportConfirmed.None? then [] else list
    {
      hide UniqueIds, AccountIds, Mirrors, ReadList, Replaces, InPlace, OnePerAccount, ProjectAll;
      var i := PlaceFor(ReadList(list), metadata);
      LookupReplaces(ReadList(list), metadata);
      id := if i < |ReadList(list)| then ReadList(list)[i].id else metadata.id;
      var enabled := if id in biometric then biometric[id] else metadata.biometricEnabled;
      if id !in biometric {
        biometric := biometric[id := enabled];
      }
      PlaceAccount(i, metadata.(id := id, biometricEnabled := enabled), old(biometric));
    }

    /** Puts an account in place i of the readable list, or at its end. */
    method PlaceAccount(i: nat, next: Account, ghost before: map<AccountId, bool>)
      requires Valid() && i <= |ReadList(list)|
      requires if i < |ReadList(list)| then ReadList(list)[i].id == next.id else next.id !in AccountIds(ReadList(list))
      requires Mirrors(ReadList(list), before) && next.biometricEnabled == Enabled(biometric, next.id)
      requires forall id | id != next.id :: Enabled(biometric, id) == Enabled(before, id)
      modifies this`list, this`view
      ensures Valid() && Published() && Mirrored() && InPlace(old(ReadList(list)), list, next.id) && next in list
      ensures forall a | a != next :: a in list <==> a in old(ReadList(list)) && a.id != next.id
      ensures ReadList(list) == if Readable(next) then list else []
    {
      var accounts := ReadList(list);
      ReadListIsReadable(list);
      ReadableUnique(list);
      hide UniqueIds, AccountIds, Mirrors, ReadList, InPlace, OnePerAccount, ProjectAll;
      var after := if i < |accounts| then accounts[i := next] else accounts + [next];
      Placed(accounts, after, i, next);
      StillMirrors(accounts, after, next, before, biometric);
      ReadBack(accounts, after, next);
      WriteAccountsList(after);
    }

    method SetInsecureTransportConfirmed(id: AccountId, confirmed: bool) returns (found: bool)
      requires Valid() && Mirrored() && Published()
      modifies this`list, this`view
      ensures Valid() && Published() && Mirrored()
      ensures found == (id in AccountIds(old(ReadList(list))))
      ensures !found ==> list == old(list)
      ensures found ==>
                var accounts := old(ReadList(list));
                var i := IndexById(accounts, id);
                list == accounts[i := accounts[i].(insecureTransportConfirmed := Some(confirmed))]
    {
      var accounts := ReadList(list);
      var i := IndexById(accounts, id);
      found := i < |accounts|;
      if found {
        var next := accounts[i].(insecureTransportConfirmed := Some(confirmed));
        ReplacedUnique(accounts, i, next);
        WriteAccountsList(accounts[i := next]);
      }
    }

    /** The single writer of the biometric flag; metadata and session carry copies of it. */
    method SetBiometricEnabled(id: AccountId, enabled: bool)
      requires Valid() && Mirrored()
      modifies this`biometric, this`list, this`sessions, this`view
      ensures Valid() && Published() && Mirrored()
      ensures biometric == old(biometric)[id := enabled]
      ensures var accounts := old(ReadList(list));
              var i := IndexById(accounts, id);
              list == if i < |accounts| && accounts[i].biometricEnabled != enabled
                      then accounts[i := accounts[i].(biometricEnabled := enabled)] else old(list)
      ensures id in old(sessions) ==> sessions == old(sessions)[id := enabled]
      ensures id !in old(sessions) ==> sessions == old(sessions)
    {
      hide Mirrors, ReadList, OnePerAccount, ProjectAll;
      ReadableUnique(list);
      biometric := biometric[id := enabled];
      var accounts := ReadList(list);
      var i := IndexById(accounts, id);
      hide UniqueIds, AccountIds;
      if i < |accounts| {
        var next := accounts[i].(biometricEnabled := enabled);
        ReplacedUnique(accounts, i, next);
        OthersElsewhere(accounts, i, next);
        StillMirrors(accounts, accounts[i := next], next, old(biometric), biometric);
        if accounts[i].biometricEnabled != enabled {
          WriteAccountsList(accounts[i := next]);
        } else {
          assert accounts[i := next] == accounts;
        }
      } else {
        NotListed(accounts, id);
        OthersMirror(accounts, id, old(biometric), biometric);
      }
      if id in sessions && sessions[id] != enabled {
        sessions := sessions[id := enabled];
      }
      RefreshNativeView(Unlocked(cache));
    }

    method StoreAutoLockTimeout(ms: nat, id: Option<AccountId>) returns (ok: bool)
      requires Valid() && Published()
      modifies this`timeouts, this`view
      ensures Published()
      ensures var resolved := if id.Some? then id else active;
              && ok == resolved.Some?
              && timeouts == if ok then old(timeouts)[resolved.value := ms] else old(timeouts)
    {
      var resolved := if id.Some? then id else active;
      ok := resolved.Some?;
      if ok {
        timeouts := timeouts[resolved.value := ms];
        RefreshNativeView(Unlocked(cache));
      }
    }

    /** Removes an account with everything stored for it, its cached key included. */
    method RemoveAccount(id: AccountId)
      requires Valid() && Mirrored()
      modifies this
      ensures Valid() && Published() && Mirrored()
      ensures list == WithoutAccount(old(ReadList(list)), id)
      ensures active == if old(active) == Some(id) then None else old(active)
      ensures biometric == old(biometric) - {id} && timeouts == old(timeouts) - {id} && sessions == old(sessions) - {id}
      ensures cache == Drop(old(cache), id) && KeyOf(cache, id) == None
      ensures destroyed == old(destroyed) + Displaced(old(cache), id, None)
      ensures old(KeysAlive()) ==> KeysAlive()
    {
      hide UniqueIds, AccountIds, Mirrors, ReadList, Drop, KeyOf, OnePerAccount, ProjectAll;
      if active == Some(id) {
        WriteActiveAccount(None);
      }
      biometric, timeouts, sessions := biometric - {id}, timeouts - {id}, sessions - {id};
      DropKey(id);
      var accounts := ReadList(list);
      WithoutAccountIs(accounts, id);
      RemovedMirrors(accounts, id, old(biometric));
      ReadableUnique(list);
      WriteAccountsList(WithoutAccount(accounts, id));
    }

    /** Destroys the cached key of an account, if there is one. */
    method DropKey(id: AccountId)
      requires OnePerAccount(cache)
      modifies this`cache, this`destroyed
      ensures OnePerAccount(cache) && cache == Drop(old(cache), id) && KeyOf(cache, id) == None
      ensures destroyed == old(destroyed) + Displaced(old(cache), id, None)
      ensures old(KeysAlive()) ==> KeysAlive()
    {
      if KeysAlive() {
        NewOrOwnStaysAlive(cache, destroyed, id, None);
      }
      var key := KeyOf(cache, id);
      if key.Some? {
        destroyed := destroyed + {key.value};
      }
      SetIs(cache, id, None);
      cache := Drop(cache, id);
    }

    /** Removes an account; with the last one gone no account stays active. */
    method ClearAllStoredData(id: Option<AccountId>)
      requires Valid() && Mirrored() && Published()
      modifies this
      ensures Valid() && Published() && Mirrored()
      ensures var resolved := if id.Some? then id else old(active);
              && (resolved.Some? ==>
                    && list == WithoutAccount(old(ReadList(list)), resolved.value)
                    && biometric == old(biometric) - {resolved.value}
                    && timeouts == old(timeouts) - {resolved.value}
                    && sessions == old(sessions) - {resolved.value}
                    && cache == Drop(old(cache), resolved.value)
                    && destroyed == old(destroyed) + Displaced(old(cache), resolved.value, None))
              && (resolved.None? ==>
                    && list == old(list) && cache == old(cache) && destroyed == old(destroyed)
                    && biometric == old(biometric) && timeouts == old(timeouts) && sessions == old(sessions))
              && active == if ReadList(list) == [] || old(active) == resolved then None else old(active)
      ensures old(KeysAlive()) ==> KeysAlive()
    {
      var resolved := if id.Some? then id else active;
      if resolved.Some? {
        RemoveAccount(resolved.value);
      }
      if ReadList(list) == [] {
        WriteActiveAccount(None);
      }
    }

    /** Locks everything: every cached key is destroyed and none is left. */
    method LockAllAccounts()
      requires Valid()
      modifies this`cache, this`destroyed, this`view
      ensures Valid() && Published() && cache == []
      ensures destroyed == old(destroyed) + Keys(old(cache)) && KeysAlive()
    {
      assert cache[0..] == cache;
      for i := 0 to |cache|
        invariant destroyed + Keys(cache[i..]) == old(destroyed) + Keys(cache) && cache == old(cache)
      {
        assert cache[i..][0] == cache[i] && cache[i..][1..] == cache[i + 1..];
        destroyed := destroyed + {cache[i].key};
      }
      cache := [];
      RefreshNativeView([]);
    }

    /** Locks one account, if it is unlocked at all. */
    method ClearSession(id: Option<AccountId>)
      requires Valid() && Published()
      modifies this`view, this`cache, this`destroyed
      ensures Valid() && Published()
      ensures var resolved := if id.Some? then id else active;
              && (resolved.None? ==> cache == old(cache) && destroyed == old(destroyed))
              && (resolved.Some? ==>
                    && KeyOf(cache, resolved.value) == None
                    && destroyed == old(destroyed) + Displaced(old(cache), resolved.value, None)
                    && forall a | a != resolved.value :: KeyOf(cache, a) == old(KeyOf(cache, a)))
      ensures old(KeysAlive()) ==> KeysAlive()
    {
      var resolved := if id.Some? then id else active;
      if resolved.Some? && KeyOf(cache, resolved.value).Some? {
        SetIs(cache, resolved.value, None);
        SetUnlockEntry(resolved.value, None);
      }
    }
  }
}
