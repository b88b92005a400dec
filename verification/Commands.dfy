/**
 * The durable command record of the outbound queue and every edit the queue makes to one
 * command. Identifiers, payloads and error texts are opaque: the queue only compares them.
 */
module Commands {
  import opened Options

  type Id = nat
  type AccountId = nat
  type EntityId = nat
  type Version = nat
  type Time = int

  datatype Kind =
    | Create
    | Update
    | Delete
    | PermanentDelete
    | RestoreItem
    | Move
    | CrossAccountMove
    | ToggleFavorite

  datatype Status = Staged | Applying | Pending | Retrying | Conflicted | Failed

  datatype Reason =
    | Thrown(text: nat)
    | ChangedBeforeSent
    | ChangedOnAnotherDevice
    | ConflictRetryLimit
    | NoAuthoritativeRevision

  /** What the command asks for. The queue never rewrites it. */
  datatype Details = Details(
    vaultId: Id,
    targetVaultId: Option<Id>,
    category: Option<nat>,
    payload: Option<nat>,
    favorite: Option<bool>)

  datatype Command = Command(
    account: AccountId,
    id: Id,
    operationId: Option<Id>,
    attemptId: Option<Id>,
    kind: Kind,
    entity: EntityId,
    details: Details,
    baseVersion: Version,
    timestamp: Time,
    retryCount: nat,
    status: Option<Status>,
    lastError: Option<Reason>,
    nextAttemptAt: Option<Time>,
    conflictCopyId: Option<Id>,
    claimId: Option<Id>,
    claimExpiresAt: Option<Time>)

  const MAX_RETRY_COUNT: nat := 5
  const BASE_RETRY_DELAY_MS: nat := 1_000
  const MAX_RETRY_DELAY_MS: nat := 60_000

  /** The durable identity of a command; HTTP attempts are replaceable, this is not. */
  function OpId(c: Command): Id {
    c.operationId.GetOr(c.id)
  }

  /** The idempotency key a dispatch of this command carries. */
  function Key(c: Command): Id {
    c.attemptId.GetOr(c.id)
  }

  function Normalize(c: Command): Command {
    c.(operationId := Some(OpId(c)), attemptId := Some(Key(c)), status := c.status.Or(Some(Pending)))
  }

  predicate IsNormal(c: Command) {
    c.operationId.Some? && c.attemptId.Some? && c.status.Some?
  }

  predicate IsActive(c: Command) {
    c.status.None? || c.status.value in {Staged, Applying, Pending, Retrying}
  }

  predicate IsReady(c: Command, now: Time) {
    && (c.status.None? || c.status.value in {Pending, Retrying})
    && (c.nextAttemptAt.None? || c.nextAttemptAt.value <= now)
  }

  /** Whether the ciphertext is already sealed against one revision of the item. */
  predicate CarriesSealedCiphertext(c: Command) {
    c.kind in {Create, Update, Move, CrossAccountMove}
  }

  // ---------------------------------------------------------------------------
  // Edits of a single command
  // ---------------------------------------------------------------------------

  function Pow2(n: nat): nat {
    if n == 0 then 1 else 2 * Pow2(n - 1)
  }

  function Min(a: int, b: int): int {
    if a <= b then a else b
  }

  function ScheduleRetry(c: Command, now: Time, error: Reason): Command
    requires c.retryCount > 0
  {
    if c.retryCount >= MAX_RETRY_COUNT then
      c.(status := Some(Failed), nextAttemptAt := None, lastError := Some(error))
    else
      c.(status := Some(Retrying),
         nextAttemptAt := Some(now + Min(BASE_RETRY_DELAY_MS * Pow2(c.retryCount - 1), MAX_RETRY_DELAY_MS)),
         lastError := Some(error))
  }

  function MarkRetrying(c: Command, now: Time, error: Reason, freshKey: Id): Command {
    var counted := c.(retryCount := c.retryCount + 1);
    var keyed := if c.kind.CrossAccountMove? then counted.(attemptId := Some(freshKey)) else counted;
    ScheduleRetry(keyed, now, error)
  }

  function MarkEncryptedConflict(c: Command, error: Reason, freshCopy: Id): Command {
    c.(status := Some(Conflicted), nextAttemptAt := None, lastError := Some(error),
       conflictCopyId := c.conflictCopyId.Or(Some(freshCopy)))
  }

  function MarkFailed(c: Command, error: Reason): Command {
    c.(status := Some(Failed), lastError := Some(error))
  }

  /** Points a command that trailed an acknowledged one at the revision the server landed on. */
  function RebaseChained(c: Command, serverVersion: Version, freshKey: Id, freshCopy: Id): Command {
    if c.baseVersion == serverVersion then c
    else if CarriesSealedCiphertext(c) then MarkEncryptedConflict(c, ChangedBeforeSent, freshCopy)
    else c.(baseVersion := serverVersion, attemptId := Some(freshKey), status := Some(Pending), nextAttemptAt := None)
  }

  /** What reading the authoritative item after a refusal produced. */
  datatype Authoritative =
    | Unavailable(error: Reason)
    | Read(etag: Option<Version>, bodyVersion: Option<Version>)

  function RebaseMetadata(c: Command, current: Authoritative, now: Time, freshKey: Id, freshCopy: Id): Command {
    match current
    case Unavailable(error) =>
      ScheduleRetry(c.(retryCount := c.retryCount + 1), now, error)
    case Read(etag, bodyVersion) =>
      if CarriesSealedCiphertext(c) then
        MarkEncryptedConflict(c, ChangedOnAnotherDevice, freshCopy)
      else
        var counted := c.(retryCount := c.retryCount + 1);
        if counted.retryCount >= MAX_RETRY_COUNT then
          counted.(status := Some(Failed), nextAttemptAt := None, lastError := Some(ConflictRetryLimit))
        else
          match etag.Or(bodyVersion)
          case None =>
            counted.(status := Some(Failed), lastError := Some(NoAuthoritativeRevision))
          case Some(version) =>
            counted.(baseVersion := version, attemptId := Some(freshKey), status := Some(Retrying),
                     nextAttemptAt := None, lastError := None)
  }

  /** How a dispatch ended, as the drain loop tells the cases apart. */
  datatype Reply =
    | Accepted(version: Option<Version>)
    | Refused
    | NotFound(error: Reason)
    | Invalid(error: Reason)
    | Unreached(error: Reason)
    | Unexpected(error: Reason)

  /** The command after a dispatch that was not accepted. */
  function AfterFailure(
    c: Command, reply: Reply, current: Authoritative, now: Time, freshKey: Id, freshCopy: Id): Command
    requires !reply.Accepted?
  {
    match reply
    case Refused => RebaseMetadata(c, current, now, freshKey, freshCopy)
    case NotFound(error) =>
      if c.kind in {Update, Move, CrossAccountMove} then MarkEncryptedConflict(c, error, freshCopy)
      else MarkFailed(c, error)
    case Invalid(error) => MarkFailed(c, error)
    case Unreached(error) => MarkRetrying(c, now, error, freshKey)
    case Unexpected(error) => MarkRetrying(c, now, error, freshKey)
  }

  /** A dispatch whose payload is incomplete throws before anything is sent. */
  predicate Dispatchable(c: Command) {
    match c.kind
    case Create => c.details.payload.Some? && c.details.category.Some?
    case Update => c.details.payload.Some?
    case Move => c.details.payload.Some? && c.details.targetVaultId.Some?
    case CrossAccountMove => false
    case _ => true
  }

  // ---------------------------------------------------------------------------
  // Local projection edits
  // ---------------------------------------------------------------------------

  predicate Claimable(c: Command, now: Time) {
    && c.status == Some(Staged)
    && !(c.claimId.Some? && (c.claimExpiresAt.None? || c.claimExpiresAt.value > now))
  }

  predicate HeldBy(c: Command, claimId: Id) {
    c.status == Some(Staged) && c.claimId == Some(claimId)
  }

  /** The edits an engine makes without talking to the server. */
  datatype LocalEdit =
    | ProjectionDone
    | ProjectionFailed(error: Reason, holder: Option<Id>)
    | TakeClaim(claimId: Id, expiresAt: Time, now: Time)
    | Activate(claimId: Id)
    | RestoredConflict(freshCopy: Id)
    | CopyFailed(error: Reason)
  {
    /** When the source makes this edit. */
    predicate Applies(c: Command) {
      match this
      case ProjectionDone => IsActive(c) && c.status != Some(Staged)
      case ProjectionFailed(_, holder) =>
        if holder.Some? then HeldBy(c, holder.value) else IsActive(c) && c.status != Some(Staged)
      case TakeClaim(_, _, now) => Claimable(c, now)
      case Activate(claimId) => HeldBy(c, claimId)
      case RestoredConflict(_) => IsActive(c) && c.status != Some(Staged)
      case CopyFailed(_) => c.status == Some(Conflicted)
    }

    function Edit(c: Command): Command {
      match this
      case ProjectionDone => c.(status := Some(Pending), lastError := None)
      case ProjectionFailed(error, _) => MarkFailed(c, error)
      case TakeClaim(claimId, expiresAt, _) => c.(claimId := Some(claimId), claimExpiresAt := Some(expiresAt))
      case Activate(_) => c.(status := Some(Pending), lastError := None, claimId := None, claimExpiresAt := None)
      case RestoredConflict(freshCopy) =>
        c.(status := Some(Conflicted), conflictCopyId := c.conflictCopyId.Or(Some(freshCopy)))
      case CopyFailed(error) => c.(lastError := Some(error))
    }
  }

  // ---------------------------------------------------------------------------
  // What every edit leaves alone
  // ---------------------------------------------------------------------------

  /** The fields no edit ever changes. */
  predicate SameIdentity(c: Command, d: Command) {
    && c.account == d.account && c.id == d.id && OpId(c) == OpId(d)
    && c.kind == d.kind && c.entity == d.entity && c.details == d.details
    && c.timestamp == d.timestamp
  }

  predicate SameAttempt(c: Command, d: Command) {
    Key(c) == Key(d) && c.baseVersion == d.baseVersion
  }

  /** d may follow c: same identity, never active again after terminal, never staged again after activation. */
  predicate Follows(c: Command, d: Command) {
    && SameIdentity(c, d)
    && (IsActive(d) ==> IsActive(c))
    && (d.status == Some(Staged) ==> c.status == Some(Staged))
    && (CarriesSealedCiphertext(c) ==> d.baseVersion == c.baseVersion)
    && (CarriesSealedCiphertext(c) && c.kind != CrossAccountMove ==> Key(d) == Key(c))
    && (IsNormal(c) ==> IsNormal(d))
  }

  lemma FollowsTransitive(b: Command, c: Command, d: Command)
    requires Follows(b, c) && Follows(c, d)
    ensures Follows(b, d)
  {
  }

  lemma LocalEditFollows(c: Command, edit: LocalEdit)
    requires edit.Applies(c)
    ensures Follows(c, edit.Edit(c)) && SameAttempt(c, edit.Edit(c))
  {
  }

  /** What one command can still cost a drain: its remaining attempts. */
  function Effort(c: Command): nat {
    if !IsActive(c) then 0
    else if c.retryCount < MAX_RETRY_COUNT then 1 + MAX_RETRY_COUNT - c.retryCount
    else 1
  }

  /**
   * One failed dispatch of an active command: it keeps its identity, follows the old copy,
   * and strictly uses up effort. A refusal never moves a sealed command to another
   * revision; only a metadata command refused with a readable revision gets a new key.
   */
  lemma FailureUsesEffort(
    c: Command, reply: Reply, current: Authoritative, now: Time, freshKey: Id, freshCopy: Id)
    requires !reply.Accepted? && IsActive(c)
    ensures var d := AfterFailure(c, reply, current, now, freshKey, freshCopy);
            && Follows(c, d)
            && Effort(d) < Effort(c)
            && (reply.Refused? && current.Read? && CarriesSealedCiphertext(c) ==> d.status == Some(Conflicted))
            && (!SameAttempt(c, d) ==> (reply.Refused? && !CarriesSealedCiphertext(c)) || c.kind == CrossAccountMove)
  {
    var d := AfterFailure(c, reply, current, now, freshKey, freshCopy);
    assert d.retryCount == c.retryCount || d.retryCount == c.retryCount + 1;
    assert IsActive(d) ==> d.retryCount == c.retryCount + 1 && d.retryCount < MAX_RETRY_COUNT;
  }

  // ---------------------------------------------------------------------------
  // What each edit comes to
  // ---------------------------------------------------------------------------

  /** The two terminal states are Conflicted and Failed; what is ready to be sent is pending or retrying, and due. */
  lemma StatesAre(c: Command, now: Time)
    ensures IsActive(c) <==> !(c.status == Some(Conflicted) || c.status == Some(Failed))
    ensures IsReady(c, now)
       <==> && IsActive(c) && c.status != Some(Staged) && c.status != Some(Applying)
            && forall at | c.nextAttemptAt == Some(at) :: at <= now
  {
    if c.status.Some? {
      match c.status.value
      case Staged =>
      case Applying =>
      case Pending =>
      case Retrying =>
      case Conflicted =>
      case Failed =>
    }
  }

  /** c and d are the same but for the state of their attempts. */
  predicate SameWork(c: Command, d: Command) {
    && SameIdentity(c, d) && c.operationId == d.operationId
    && c.claimId == d.claimId && c.claimExpiresAt == d.claimExpiresAt
  }

  /** c is put back: it waits for a second, doubling up to a minute, and is given up with its fifth attempt. */
  predicate PutBack(c: Command, d: Command, now: Time, error: Reason) {
    && SameWork(c, d) && d.baseVersion == c.baseVersion && d.conflictCopyId == c.conflictCopyId
    && d.retryCount == c.retryCount + 1 && d.lastError == Some(error)
    && if c.retryCount >= 4 then d.status == Some(Failed) && d.nextAttemptAt == None
       else d.status == Some(Retrying) && d.nextAttemptAt == Some(now + [1_000, 2_000, 4_000, 8_000][c.retryCount])
  }

  predicate GivenUp(c: Command, d: Command, error: Reason) {
    && SameWork(c, d) && SameAttempt(c, d) && d.status == Some(Failed) && d.lastError == Some(error)
    && d.conflictCopyId == c.conflictCopyId
  }

  /** d is in conflict, has not moved, and has an id for the copy that preserves it. */
  predicate PutInConflict(c: Command, d: Command, error: Reason, freshCopy: Id) {
    && SameWork(c, d) && SameAttempt(c, d) && d.status == Some(Conflicted) && d.lastError == Some(error)
    && d.nextAttemptAt == None && d.retryCount == c.retryCount
    && d.conflictCopyId == (if c.conflictCopyId.Some? then c.conflictCopyId else Some(freshCopy))
  }

  /** d asks for the same against this revision, under this key, at once. */
  ghost predicate PointedAt(c: Command, d: Command, version: Version, key: Id) {
    && SameWork(c, d) && d.baseVersion == version && d.attemptId == Some(key) && d.nextAttemptAt == None
    && d.conflictCopyId == c.conflictCopyId
    && forall t: Time :: IsReady(d, t)
  }

  /** What a refusal comes to: a sealed command is in conflict, any other follows the revision that was read. */
  lemma RefusedOutcome(c: Command, current: Authoritative, now: Time, freshKey: Id, freshCopy: Id)
    ensures var d := AfterFailure(c, Refused, current, now, freshKey, freshCopy);
            match current
            case Unavailable(error) => PutBack(c, d, now, error) && Key(d) == Key(c)
            case Read(etag, body) =>
              if c.kind in {Create, Update, Move, CrossAccountMove} then
                PutInConflict(c, d, ChangedOnAnotherDevice, freshCopy)
              else if c.retryCount >= 4 then GivenUp(c, d, ConflictRetryLimit) && d.nextAttemptAt == None
              else if etag.None? && body.None? then GivenUp(c, d, NoAuthoritativeRevision)
              else
                && PointedAt(c, d, if etag.Some? then etag.value else body.value, freshKey)
                && d.retryCount == c.retryCount + 1 && d.lastError == None && d.status == Some(Retrying)
  {
    BackoffTable(c.retryCount);
  }

  /** What every other failure comes to. */
  lemma FailureOutcome(c: Command, reply: Reply, current: Authoritative, now: Time, freshKey: Id, freshCopy: Id)
    requires !reply.Accepted? && !reply.Refused?
    ensures var d := AfterFailure(c, reply, current, now, freshKey, freshCopy);
            match reply
            case NotFound(error) =>
              if c.kind in {Update, Move, CrossAccountMove} then PutInConflict(c, d, error, freshCopy)
              else GivenUp(c, d, error)
            case Invalid(error) => GivenUp(c, d, error)
            case Unreached(error) =>
              PutBack(c, d, now, error) && Key(d) == if c.kind.CrossAccountMove? then freshKey else Key(c)
            case Unexpected(error) =>
              PutBack(c, d, now, error) && Key(d) == if c.kind.CrossAccountMove? then freshKey else Key(c)
  {
    BackoffTable(c.retryCount);
  }

  lemma BackoffTable(n: nat)
    ensures n < 4 ==> BASE_RETRY_DELAY_MS * Pow2(n) == [1_000, 2_000, 4_000, 8_000][n]
  {
    assert Pow2(0) == 1 && Pow2(1) == 2 && Pow2(2) == 4 && Pow2(3) == 8;
  }

  /** What becomes of the command behind an acknowledged one. */
  lemma ChainedOutcome(c: Command, version: Version, freshKey: Id, freshCopy: Id)
    ensures var d := RebaseChained(c, version, freshKey, freshCopy);
            if c.baseVersion == version then d == c
            else if c.kind in {Create, Update, Move, CrossAccountMove} then
              PutInConflict(c, d, ChangedBeforeSent, freshCopy)
            else
              PointedAt(c, d, version, freshKey) && d.status == Some(Pending) && d.retryCount == c.retryCount
              && d.lastError == c.lastError
  {
  }

  /** A staged command may be claimed unless somebody holds a claim on it that has not expired. */
  lemma ClaimableIff(c: Command, now: Time)
    ensures Claimable(c, now)
       <==> && c.status == Some(Staged)
            && forall holder | HeldBy(c, holder) :: exists at :: c.claimExpiresAt == Some(at) && at <= now
  {
    if c.claimId.Some? && c.status == Some(Staged) {
      assert HeldBy(c, c.claimId.value);
    }
  }

  /** What the local edits come to. */
  lemma LocalEditOutcome(c: Command, edit: LocalEdit)
    requires edit.Applies(c)
    ensures var d := edit.Edit(c);
            match edit
            case ProjectionDone => d == c.(status := Some(Pending), lastError := None)
            case ProjectionFailed(error, holder) =>
              (holder.Some? ==> HeldBy(c, holder.value)) && d == c.(status := Some(Failed), lastError := Some(error))
            case TakeClaim(holder, until, _) =>
              HeldBy(d, holder) && d == c.(claimId := d.claimId, claimExpiresAt := Some(until))
            case Activate(holder) =>
              && HeldBy(c, holder) && (forall k :: !HeldBy(d, k))
              && d == c.(status := Some(Pending), lastError := None, claimId := None, claimExpiresAt := None)
            case RestoredConflict(copy) =>
              && d.status == Some(Conflicted) && d.conflictCopyId.Some?
              && d == c.(status := d.status, conflictCopyId := c.conflictCopyId.Or(Some(copy)))
            case CopyFailed(error) => c.status == Some(Conflicted) && d == c.(lastError := Some(error))
  {
  }

  /** What may be sent: everything but cross-account moves, if its payload is complete. */
  lemma DispatchableIff(c: Command)
    ensures Dispatchable(c)
       <==> && c.kind != CrossAccountMove
            && (c.kind in {Create, Update, Move} ==> c.details.payload.Some?)
            && (c.kind == Create ==> c.details.category.Some?)
            && (c.kind == Move ==> c.details.targetVaultId.Some?)
  {
  }

  lemma NormalizeIs(c: Command)
    ensures var d := Normalize(c);
            && IsNormal(d) && OpId(d) == OpId(c) && Key(d) == Key(c)
            && d == c.(operationId := Some(OpId(c)), attemptId := Some(Key(c)),
                       status := if c.status.Some? then c.status else Some(Pending))
  {
  }

  lemma {:induction false} Pow2Monotone(m: nat, n: nat)
    requires m <= n
    ensures 1 <= Pow2(m) <= Pow2(n)
    decreases n
  {
    if m < n {
      Pow2Monotone(m, n - 1);
    } else if n > 0 {
      Pow2Monotone(m - 1, n - 1);
    }
  }

  /** Back-off never exceeds a minute, is at least a second, and never shrinks with the retry count. */
  lemma BackoffIsMonotone(c: Command, d: Command, now: Time, error: Reason)
    requires 0 < c.retryCount <= d.retryCount < MAX_RETRY_COUNT
    ensures ScheduleRetry(c, now, error).nextAttemptAt.Some?
    ensures ScheduleRetry(d, now, error).nextAttemptAt.Some?
    ensures now + BASE_RETRY_DELAY_MS <= ScheduleRetry(c, now, error).nextAttemptAt.value
         <= ScheduleRetry(d, now, error).nextAttemptAt.value <= now + MAX_RETRY_DELAY_MS
  {
    Pow2Monotone(0, c.retryCount - 1);
    Pow2Monotone(c.retryCount - 1, d.retryCount - 1);
  }
}
