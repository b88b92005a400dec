/**
 * The account lock made of promises: a call waits for the promise stored for its account, stores
 * one that settles after its own release, and on the way out removes the entry if it is still
 * its own. Any number of calls, each of which may fail.
 */
module AccountLock {
  import opened Options

  type AccountId = nat

  /** Calls are numbered as they arrive. */
  type Call = nat

  /** Leaving is the finally block of an operation that has returned or thrown. */
  datatype Phase = Waiting | Running | Leaving(threw: bool) | Finished(threw: bool)

  /**
   * awaited is the promise a call found (None: an already settled one), locks the last promise stored per
   * account; a promise is named by the call that made it. started is the order in which operations began.
   */
  datatype State = State(
    next: Call,
    locks: map<AccountId, Call>,
    account: map<Call, AccountId>,
    awaited: map<Call, Option<Call>>,
    phase: map<Call, Phase>,
    started: seq<Call>)

  const INITIAL: State := State(0, map[], map[], map[], map[], [])

  datatype Action =
    | Arrive(account: AccountId)
    | Start(call: Call)
    | Settle(call: Call, threw: bool)
    | Release(call: Call)

  /** The promise of a call settles once the promise it waited for has, and then its own gate. */
  predicate Settled(s: State, c: Call)
    decreases c
  {
    && c in s.phase && c in s.awaited && s.phase[c].Finished?
    && (s.awaited[c].Some? ==> s.awaited[c].value < c && Settled(s, s.awaited[c].value))
  }

  predicate Enabled(s: State, a: Action) {
    match a
    case Arrive(_) => true
    case Start(c) =>
      && c in s.phase && c in s.awaited && s.phase[c] == Waiting
      && (s.awaited[c].Some? ==> Settled(s, s.awaited[c].value))
    case Settle(c, _) => c in s.phase && s.phase[c] == Running
    case Release(c) => c in s.phase && c in s.account && s.phase[c].Leaving?
  }

  function Next(s: State, a: Action): State
    requires Enabled(s, a)
  {
    match a
    case Arrive(account) =>
      var previous := if account in s.locks then Some(s.locks[account]) else None;
      s.(next := s.next + 1, locks := s.locks[account := s.next], account := s.account[s.next := account],
         awaited := s.awaited[s.next := previous], phase := s.phase[s.next := Waiting])
    case Start(c) => s.(phase := s.phase[c := Running], started := s.started + [c])
    case Settle(c, threw) => s.(phase := s.phase[c := Leaving(threw)])
    case Release(c) =>
      var own := s.account[c] in s.locks && s.locks[s.account[c]] == c;
      s.(phase := s.phase[c := Finished(s.phase[c].threw)], locks := if own then s.locks - {s.account[c]} else s.locks)
  }

  ghost predicate Runs(s: State, actions: seq<Action>)
    decreases |actions|
  {
    actions != [] ==> Enabled(s, actions[0]) && Runs(Next(s, actions[0]), actions[1..])
  }

  function After(s: State, actions: seq<Action>): State
    requires Runs(s, actions)
    decreases |actions|
  {
    if actions == [] then s else After(Next(s, actions[0]), actions[1..])
  }

  // ---------------------------------------------------------------------------
  // The invariant
  // ---------------------------------------------------------------------------

  ghost predicate Known(s: State) {
    && s.account.Keys == s.awaited.Keys == s.phase.Keys
    && forall c: Call :: c in s.account <==> c < s.next
  }

  predicate Of(s: State, c: Call, account: AccountId) {
    c in s.account && c in s.phase && s.account[c] == account
  }

  /** Every earlier call for the same account has finished. */
  ghost predicate MyTurn(s: State, c: Call) {
    forall b: Call, a | b < c && Of(s, c, a) && Of(s, b, a) :: s.phase[b].Finished?
  }

  ghost predicate Inv(s: State) {
    && Known(s)
    && (forall c | c in s.phase && s.phase[c] != Waiting :: MyTurn(s, c))
    && (forall c | c in s.awaited :: AwaitsNeighbour(s, c))
    && (forall a :: EntryIsLast(s, a))
    && (forall i | 0 <= i < |s.started| :: s.started[i] in s.phase && s.phase[s.started[i]] != Waiting)
    && (forall i, j, a | 0 <= i < j < |s.started| && Of(s, s.started[i], a) && Of(s, s.started[j], a) ::
          s.started[i] < s.started[j])
  }

  /** A call waits for the call right before it, or found its account free. */
  ghost predicate AwaitsNeighbour(s: State, c: Call)
    requires c in s.awaited
  {
    match s.awaited[c]
    case None => MyTurn(s, c)
    case Some(b) => b < c && forall a | Of(s, c, a) :: Of(s, b, a) && forall d: Call | b < d < c :: !Of(s, d, a)
  }

  /** The stored promise is that of the last call, and unfinished; without one everybody has finished. */
  ghost predicate EntryIsLast(s: State, a: AccountId) {
    if a in s.locks then
      && Of(s, s.locks[a], a) && !s.phase[s.locks[a]].Finished?
      && forall c | Of(s, c, a) :: c <= s.locks[a]
    else
      forall c | Of(s, c, a) :: s.phase[c].Finished?
  }

  lemma SettledIffFinished(s: State, c: Call)
    requires Inv(s) && c in s.phase
    ensures Settled(s, c) <==> s.phase[c].Finished?
    decreases c
  {
    if s.phase[c].Finished? && s.awaited[c].Some? {
      var b := s.awaited[c].value;
      assert AwaitsNeighbour(s, c) && Of(s, c, s.account[c]);
      assert MyTurn(s, c) && Of(s, b, s.account[c]);
      SettledIffFinished(s, b);
    }
  }

  /** Whoever can start is the first unfinished call of its account. */
  lemma StartIsMyTurn(s: State, c: Call)
    requires Inv(s) && Enabled(s, Start(c))
    ensures MyTurn(s, c)
  {
    assert AwaitsNeighbour(s, c);
    if s.awaited[c].Some? {
      var b := s.awaited[c].value;
      var a := s.account[c];
      assert Of(s, c, a) && Of(s, b, a);
      SettledIffFinished(s, b);
      assert MyTurn(s, b);
    }
  }

  lemma ArriveKeepsInv(s: State, account: AccountId)
    requires Inv(s)
    ensures Inv(Next(s, Arrive(account)))
  {
    var c, t := s.next, Next(s, Arrive(account));
    assert c !in s.account;
    assert forall b, a | b != c :: Of(t, b, a) == Of(s, b, a);
    assert EntryIsLast(s, account);
    forall b | b in t.awaited ensures AwaitsNeighbour(t, b) {
      if b != c {
        assert AwaitsNeighbour(s, b);
      }
    }
    forall b | b in t.phase && t.phase[b] != Waiting ensures MyTurn(t, b) {
      assert MyTurn(s, b);
    }
    forall a ensures EntryIsLast(t, a) {
      assert EntryIsLast(s, a);
    }
  }

  lemma StartKeepsInv(s: State, c: Call)
    requires Inv(s) && Enabled(s, Start(c))
    ensures Inv(Next(s, Start(c)))
  {
    var t := Next(s, Start(c));
    StartIsMyTurn(s, c);
    PhaseChange(s, t, c, Running);
    forall i, a | 0 <= i < |s.started| && Of(t, s.started[i], a) && Of(t, c, a) ensures s.started[i] < c {
      var d := s.started[i];
      assert MyTurn(s, d) && Of(s, c, a) && Of(s, d, a);
    }
    forall a ensures EntryIsLast(t, a) {
      assert EntryIsLast(s, a);
    }
  }

  /** Moving one call forward spoils nothing about the others. */
  lemma PhaseChange(s: State, t: State, c: Call, p: Phase)
    requires Inv(s) && c in s.phase && !s.phase[c].Finished? && MyTurn(s, c)
    requires t.account == s.account && t.awaited == s.awaited && t.next == s.next
    requires p != Waiting && t.phase == s.phase[c := p]
    ensures Known(t) && (forall b, a :: Of(t, b, a) == Of(s, b, a))
    ensures forall b | b in t.phase && t.phase[b] != Waiting :: MyTurn(t, b)
    ensures forall b | b in t.awaited :: AwaitsNeighbour(t, b)
  {
    forall b | b in t.phase && MyTurn(s, b) ensures MyTurn(t, b) {
      forall d: Call, a | d < b && Of(t, b, a) && Of(t, d, a) ensures t.phase[d].Finished? {
        assert Of(s, b, a) && Of(s, d, a);
      }
    }
    forall b | b in t.awaited ensures AwaitsNeighbour(t, b) {
      assert AwaitsNeighbour(s, b);
      if s.awaited[b].Some? {
        assert forall a, d :: Of(t, d, a) == Of(s, d, a);
      }
    }
  }

  lemma SettleKeepsInv(s: State, c: Call, threw: bool)
    requires Inv(s) && Enabled(s, Settle(c, threw))
    ensures Inv(Next(s, Settle(c, threw)))
  {
    var t := Next(s, Settle(c, threw));
    assert MyTurn(s, c);
    PhaseChange(s, t, c, Leaving(threw));
    forall a ensures EntryIsLast(t, a) {
      assert EntryIsLast(s, a);
    }
  }

  lemma ReleaseKeepsInv(s: State, c: Call)
    requires Inv(s) && Enabled(s, Release(c))
    ensures Inv(Next(s, Release(c)))
  {
    var t := Next(s, Release(c));
    assert MyTurn(s, c);
    PhaseChange(s, t, c, Finished(s.phase[c].threw));
    forall a ensures EntryIsLast(t, a) {
      assert EntryIsLast(s, a);
    }
  }

  lemma StepKeepsInv(s: State, a: Action)
    requires Inv(s) && Enabled(s, a)
    ensures Inv(Next(s, a))
  {
    match a
    case Arrive(account) => ArriveKeepsInv(s, account);
    case Start(c) => StartKeepsInv(s, c);
    case Settle(c, threw) => SettleKeepsInv(s, c, threw);
    case Release(c) => ReleaseKeepsInv(s, c);
  }

  lemma InitialInv()
    ensures Inv(INITIAL)
  {
  }

  lemma {:induction false} RunKeepsInv(s: State, actions: seq<Action>)
    requires Inv(s) && Runs(s, actions)
    ensures Inv(After(s, actions))
    decreases |actions|
  {
    if actions != [] {
      StepKeepsInv(s, actions[0]);
      RunKeepsInv(Next(s, actions[0]), actions[1..]);
    }
  }

  // ---------------------------------------------------------------------------
  // Main results
  // ---------------------------------------------------------------------------

  /** Holding the lock: from the start of the operation to the end of its finally block. */
  predicate Holds(s: State, c: Call, account: AccountId) {
    Of(s, c, account) && (s.phase[c].Running? || s.phase[c].Leaving?)
  }

  /** Two operations on one account never overlap. */
  lemma MutualExclusion(actions: seq<Action>, b: Call, c: Call, account: AccountId)
    requires Runs(INITIAL, actions)
    requires Holds(After(INITIAL, actions), b, account) && Holds(After(INITIAL, actions), c, account)
    ensures b == c
  {
    InitialInv();
    RunKeepsInv(INITIAL, actions);
    var s := After(INITIAL, actions);
    assert MyTurn(s, b) && MyTurn(s, c);
  }

  /** Operations on one account begin in the order in which they were asked for. */
  lemma FirstComeFirstServed(actions: seq<Action>, i: nat, j: nat, account: AccountId)
    requires Runs(INITIAL, actions)
    requires var s := After(INITIAL, actions);
             i < j < |s.started| && Of(s, s.started[i], account) && Of(s, s.started[j], account)
    ensures After(INITIAL, actions).started[i] < After(INITIAL, actions).started[j]
  {
    InitialInv();
    RunKeepsInv(INITIAL, actions);
  }

  ghost predicate AllRecorded(s: State) {
    forall c | c in s.phase && s.phase[c] != Waiting :: c in s.started
  }

  lemma {:induction false} RunKeepsRecorded(s: State, actions: seq<Action>)
    requires AllRecorded(s) && Runs(s, actions)
    ensures AllRecorded(After(s, actions))
    decreases |actions|
  {
    if actions != [] {
      RunKeepsRecorded(Next(s, actions[0]), actions[1..]);
    }
  }

  /** Nobody overtakes: whoever has begun finds every earlier call of the account finished; every start is recorded. */
  lemma NobodyOvertakes(actions: seq<Action>, b: Call, c: Call, account: AccountId)
    requires Runs(INITIAL, actions)
    requires var s := After(INITIAL, actions);
             b < c && Of(s, b, account) && Of(s, c, account) && s.phase[c] != Waiting
    ensures After(INITIAL, actions).phase[b].Finished?
    ensures b in After(INITIAL, actions).started && c in After(INITIAL, actions).started
  {
    InitialInv();
    RunKeepsInv(INITIAL, actions);
    RunKeepsRecorded(INITIAL, actions);
    assert MyTurn(After(INITIAL, actions), c);
  }

  /** The first unfinished call of an account. */
  lemma {:induction false} FirstUnfinished(s: State, account: AccountId, c: Call) returns (b: Call)
    requires Inv(s) && Of(s, c, account) && !s.phase[c].Finished?
    ensures Of(s, b, account) && !s.phase[b].Finished? && b <= c && MyTurn(s, b)
    decreases c
  {
    b := c;
    if !MyTurn(s, c) {
      var d: Call, a :| d < c && Of(s, c, a) && Of(s, d, a) && !s.phase[d].Finished?;
      b := FirstUnfinished(s, account, d);
    }
  }

  /** The first unfinished call can move on, whatever phase it is in. */
  lemma FirstCanMove(s: State, account: AccountId, b: Call)
    requires Inv(s) && Of(s, b, account) && !s.phase[b].Finished? && MyTurn(s, b)
    ensures s.phase[b].Waiting? ==> Enabled(s, Start(b))
    ensures s.phase[b].Running? ==> Enabled(s, Settle(b, false)) && Enabled(s, Settle(b, true))
    ensures s.phase[b].Leaving? ==> Enabled(s, Release(b))
  {
    if s.phase[b].Waiting? && s.awaited[b].Some? {
      assert AwaitsNeighbour(s, b) && Of(s, s.awaited[b].value, account);
      SettledIffFinished(s, s.awaited[b].value);
    }
  }

  /** While anybody waits for an account, somebody can move: the holder, or the first in line can start. */
  lemma SomebodyCanProceed(actions: seq<Action>, c: Call, account: AccountId)
    requires Runs(INITIAL, actions)
    requires Of(After(INITIAL, actions), c, account) && After(INITIAL, actions).phase[c] == Waiting
    ensures var s := After(INITIAL, actions);
            exists b: Call :: Of(s, b, account) && b <= c
                              && (Enabled(s, Start(b)) || Enabled(s, Settle(b, false)) || Enabled(s, Release(b)))
  {
    InitialInv();
    RunKeepsInv(INITIAL, actions);
    var s := After(INITIAL, actions);
    var b := FirstUnfinished(s, account, c);
    FirstCanMove(s, account, b);
    assert Enabled(s, Start(b)) || Enabled(s, Settle(b, false)) || Enabled(s, Release(b));
  }

  /** The entry of an account is gone exactly when nobody holds or waits for it. */
  lemma EntryGoneIffIdle(actions: seq<Action>, account: AccountId)
    requires Runs(INITIAL, actions)
    ensures var s := After(INITIAL, actions);
            account !in s.locks <==> forall c | Of(s, c, account) :: s.phase[c].Finished?
  {
    InitialInv();
    RunKeepsInv(INITIAL, actions);
    assert EntryIsLast(After(INITIAL, actions), account);
  }

  /**
   * Leaving the lock hands it on, also after an operation that threw: right after the finally block either the
   * longest waiting call of the account can start, or nobody waits and the entry is gone.
   */
  lemma ReleaseHandsOver(actions: seq<Action>, c: Call, account: AccountId)
    requires Runs(INITIAL, actions) && Of(After(INITIAL, actions), c, account)
    requires Enabled(After(INITIAL, actions), Release(c))
    ensures var t := Next(After(INITIAL, actions), Release(c));
            || (account !in t.locks && forall b | Of(t, b, account) :: t.phase[b].Finished?)
            || (exists b: Call :: Of(t, b, account) && MyTurn(t, b) && Enabled(t, Start(b)))
  {
    InitialInv();
    RunKeepsInv(INITIAL, actions);
    var s := After(INITIAL, actions);
    ReleaseKeepsInv(s, c);
    var t := Next(s, Release(c));
    assert EntryIsLast(t, account);
    if account in t.locks {
      var b := FirstUnfinished(t, account, t.locks[account]);
      OnlyTheHolderHeld(s, c, b, account);
      FirstCanMove(t, account, b);
    }
  }

  /** While c leaves, every other unfinished call of its account waits. */
  lemma OnlyTheHolderHeld(s: State, c: Call, b: Call, account: AccountId)
    requires Inv(s) && Of(s, c, account) && s.phase[c].Leaving?
    requires Of(s, b, account) && b != c && !s.phase[b].Finished?
    ensures s.phase[b].Waiting?
  {
    assert MyTurn(s, c);
    assert s.phase[b] != Waiting ==> MyTurn(s, b);
  }
}
