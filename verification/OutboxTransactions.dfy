/**
 * What each transaction on the outbox table does, as functions of the database value.
 * The repositories are proved to perform these; the protocol interleaves them.
 */
module OutboxTransactions {
  import opened Basics
  import opened Canonical
  import opened OutboxModel
  import Selection

  const CHALLENGE_EVENT := "email_challenge_requested"

  predicate SameAggregateEarlier(e: Row, r: Row) {
    e.envelope.aggregate == r.envelope.aggregate && e.envelope.version < r.envelope.version
  }

  // ---- ordering of query results ---------------------------------------------------

  /** ORDER BY id LIMIT n */
  function LowestIds(ids: set<Id>, n: nat): (r: seq<Id>)
    ensures |r| == Min(n, |ids|)
    ensures forall x | x in r :: x in ids
    ensures forall i, j | 0 <= i < j < |r| :: r[i] < r[j]
    ensures forall x, y | x in r && y in ids && y !in r :: x < y
  {
    Selection.Select(ids, id => Selection.Rank(0, 0), n)
  }

  function ByAvailability(rows: Rows): Id -> Selection.Rank {
    id => if id in rows then Selection.Rank(rows[id].availableAt, 0) else Selection.Rank(0, 0)
  }

  /** ORDER BY available_at, id LIMIT 1 */
  function First(rows: Rows, ids: set<Id>): (f: Id)
    requires ids != {} && ids <= rows.Keys
    ensures f in ids
    ensures forall x | x in ids ::
              rows[f].availableAt < rows[x].availableAt || (rows[f].availableAt == rows[x].availableAt && f <= x)
  {
    var f := Selection.Least(ids, ByAvailability(rows));
    assert forall x | x in ids :: Selection.Precedes(ByAvailability(rows), f, x);
    f
  }

  // ---- leased claim ----------------------------------------------------------------

  predicate LeaseExpired(r: Row, now: Time) {
    r.status == Processing && r.lease.Some? && r.lease.value <= now
  }

  predicate Waiting(r: Row) {
    r.status == Pending || r.status == Failed
  }

  predicate Sweepable(r: Row, types: set<string>, now: Time) {
    && r.envelope.eventType in types
    && (LeaseExpired(r, now) || Waiting(r))
    && (r.attempts >= r.retryBudget || (r.deadline.Some? && r.deadline.value <= now))
  }

  function GivenUp(r: Row): Status {
    if r.fingerprint.Some? then Uncertain else Dead
  }

  function Expire(r: Row): Row {
    r.(status := GivenUp(r), errorCode := Some("delivery_budget_expired"), token := None, lease := None)
  }

  function Swept(rows: Rows, ids: seq<Id>): Rows {
    map id | id in rows :: if id in ids then Expire(rows[id]) else rows[id]
  }

  const SWEEP_LIMIT: nat := 100

  /** The rows one claim transaction expires; busy rows are locked elsewhere and skipped. */
  function SweepIds(rows: Rows, types: set<string>, now: Time, busy: set<Id>): seq<Id> {
    LowestIds((set id | id in rows && Sweepable(rows[id], types, now)) - busy, SWEEP_LIMIT)
  }

  predicate Overtaking(rows: Rows, r: Row) {
    exists e | e in rows ::
      SameAggregateEarlier(rows[e], r) && rows[e].status != Published && rows[e].status != Skipped
  }

  predicate Claimable(rows: Rows, r: Row, types: set<string>, now: Time) {
    && r.envelope.eventType in types
    && ((Waiting(r) && r.availableAt <= now) || LeaseExpired(r, now))
    && r.attempts < r.retryBudget
    && !Overtaking(rows, r)
  }

  function ClaimIds(rows: Rows, types: set<string>, now: Time, busy: set<Id>): set<Id> {
    (set id | id in rows && Claimable(rows, rows[id], types, now)) - busy
  }

  function ClaimDeadline(r: Row, now: Time, settings: Settings): Time {
    Min(r.deadline.GetOr(now + settings.maxAgeSeconds * SECOND),
        r.envelope.occurredAt + settings.maxAgeSeconds * SECOND)
  }

  function TooOld(r: Row, deadline: Time): Row {
    r.(deadline := Some(deadline), status := GivenUp(r), errorCode := Some("delivery_too_old"))
  }

  function Taken(r: Row, now: Time, deadline: Time, settings: Settings, token: Token): Row {
    r.(deadline := Some(deadline),
       retryBudget := if r.attempts == 0 then settings.maxAttempts else r.retryBudget,
       status := Processing,
       lease := Some(now + settings.leaseSeconds * SECOND),
       claimedAt := Some(now),
       attempts := r.attempts + 1,
       token := Some(token))
  }

  function ClaimOf(id: Id, r: Row, deadline: Time, token: Token): Claim {
    Claim(id, token, if r.envelope.decodes then Some(r.envelope) else None, r.attempts, r.retryBudget, deadline,
          r.receipts)
  }

  function Heartbeat(controls: map<string, Control>, group: string, now: Time): map<string, Control> {
    controls[group := Control(group in controls && controls[group].paused, now)]
  }

  /** The pick that follows the sweep: one row changes, and is handed out unless its window closed. */
  function PickRows(rows: Rows, types: set<string>, now: Time, settings: Settings, busy: set<Id>, token: Token)
    : (Rows, Option<Claim>)
  {
    var ready := ClaimIds(rows, types, now, busy);
    if ready == {} then (rows, None)
    else
      var id := First(rows, ready);
      var deadline := ClaimDeadline(rows[id], now, settings);
      if deadline <= now then (rows[id := TooOld(rows[id], deadline)], None)
      else
        var row := Taken(rows[id], now, deadline, settings, token);
        (rows[id := row], Some(ClaimOf(id, row, deadline, token)))
  }

  /** The row changes of a claim that is not paused, and the claim it returns. */
  function ClaimRows(rows: Rows, types: set<string>, now: Time, settings: Settings, busySweep: set<Id>,
                     busyPick: set<Id>, token: Token): (Rows, Option<Claim>)
  {
    PickRows(Swept(rows, SweepIds(rows, types, now, busySweep)), types, now, settings, busyPick, token)
  }

  function ClaimTx(db: Db, group: string, types: set<string>, now: Time, settings: Settings, busySweep: set<Id>,
                   busyPick: set<Id>, token: Token): (Db, Option<Claim>)
  {
    var controls := Heartbeat(db.controls, group, now);
    if controls[group].paused then (Db(db.rows, controls), None)
    else
      var (rows, claim) := ClaimRows(db.rows, types, now, settings, busySweep, busyPick, token);
      (Db(rows, controls), claim)
  }

  // ---- fenced transitions ----------------------------------------------------------

  /** Still the current lease holder when the fence is evaluated at time `at`. */
  predicate Owned(rows: Rows, claim: Claim, at: Time) {
    && claim.messageId in rows
    && var r := rows[claim.messageId];
    r.token == Some(claim.token) && r.status == Processing && r.lease.Some? && r.lease.value > at
  }

  datatype BindVerdict = Allowed | ContentChanged | Expired

  function BindDecision(r: Row, claim: Claim, fingerprint: Fingerprint, expiresAt: Time, now: Time): BindVerdict {
    if r.fingerprint.Some? && r.fingerprint.value != fingerprint then ContentChanged
    else if Min(claim.deadline, expiresAt) <= now then Expired
    else Allowed
  }

  function BoundRow(r: Row, claim: Claim, fingerprint: Fingerprint, expiresAt: Time, now: Time): Row {
    match BindDecision(r, claim, fingerprint, expiresAt, now)
    case ContentChanged =>
      r.(status := Blocked, errorCode := Some("delivery_content_changed"), token := None, lease := None)
    case Expired =>
      r.(deadline := Some(Min(claim.deadline, expiresAt)),
         status := if r.fingerprint.Some? then Uncertain else Skipped,
         errorCode := Some("delivery_expired"), token := None, lease := None)
    case Allowed =>
      r.(deadline := Some(Min(claim.deadline, expiresAt)), fingerprint := Some(fingerprint))
  }

  function Pause(controls: map<string, Control>, group: string): map<string, Control> {
    if group in controls then controls[group := controls[group].(paused := true)] else controls
  }

  function BindTx(db: Db, group: string, claim: Claim, fingerprint: Fingerprint, expiresAt: Time, ownedAt: Time,
                  now: Time): (Db, bool)
  {
    if !Owned(db.rows, claim, ownedAt) then (db, false)
    else
      var r := db.rows[claim.messageId];
      var verdict := BindDecision(r, claim, fingerprint, expiresAt, now);
      (Db(db.rows[claim.messageId := BoundRow(r, claim, fingerprint, expiresAt, now)],
          if verdict == ContentChanged then Pause(db.controls, group) else db.controls),
       verdict == Allowed)
  }

  function FinishStatus(r: Row, claim: Claim, outcome: Outcome, availableAt: Time): Status {
    var status := NextStatus(outcome.kind, r.attempts, r.retryBudget);
    if status == Failed && availableAt >= r.deadline.GetOr(claim.deadline) then GivenUp(r) else status
  }

  function FinishedRow(r: Row, claim: Claim, outcome: Outcome, delay: Time, now: Time): Row {
    var status := FinishStatus(r, claim, outcome, now + delay);
    r.(receipts := r.receipts + outcome.receipts,
       status := status,
       availableAt := now + delay,
       errorCode := Some(outcome.code),
       publishedAt := if status == Published then Some(now) else None,
       token := None, lease := None, claimedAt := None)
  }

  function FinishTx(db: Db, group: string, claim: Claim, outcome: Outcome, delay: Time, ownedAt: Time, now: Time)
    : (Db, bool)
  {
    if !Owned(db.rows, claim, ownedAt) then (db, false)
    else
      var r := FinishedRow(db.rows[claim.messageId], claim, outcome, delay, now);
      (Db(db.rows[claim.messageId := r], if r.status == Blocked then Pause(db.controls, group) else db.controls),
       true)
  }

  // ---- operator recovery -----------------------------------------------------------

  /** What handler.prepare returned to the operator's replay. */
  datatype Preparation = Ready(fingerprint: Fingerprint, expiresAt: Time) | Refused(outcome: Outcome)

  predicate Replayable(rows: Rows, id: Id, types: set<string>, prepared: Preparation, now: Time) {
    && id in rows
    && var r := rows[id];
    && r.envelope.eventType in types
    && (r.status == Dead || r.status == Blocked)
    && r.deadline.Some? && r.deadline.value > now
    && r.attempts < MAX_REPLAY_ATTEMPTS
    && r.envelope.decodes
    && prepared.Ready? && prepared.expiresAt > now
    && (r.fingerprint.Some? ==> r.fingerprint.value == prepared.fingerprint)
  }

  function ReplayedRow(r: Row, now: Time): Row {
    r.(retryBudget := Min(MAX_REPLAY_ATTEMPTS, r.attempts + 3), status := Pending, availableAt := now,
       token := None, lease := None)
  }

  function ReplayTx(rows: Rows, id: Id, types: set<string>, prepared: Preparation, now: Time): (Rows, bool) {
    if Replayable(rows, id, types, prepared, now) then (rows[id := ReplayedRow(rows[id], now)], true)
    else (rows, false)
  }

  // ---- ordinary repository ---------------------------------------------------------

  function NewRow(envelope: Envelope, availableAt: Time): Row {
    Row(envelope, Pending, 0, availableAt, None, None, None, None, None, None, map[], 5, None)
  }

  predicate OrdinaryOvertaking(rows: Rows, r: Row) {
    exists e | e in rows :: SameAggregateEarlier(rows[e], r) && rows[e].status != Published
  }

  predicate OrdinaryClaimable(rows: Rows, r: Row, types: Option<set<string>>, maxAttempts: nat, now: Time) {
    && Waiting(r)
    && r.attempts < maxAttempts
    && r.token.None?
    && r.envelope.eventType != CHALLENGE_EVENT
    && r.availableAt <= now
    && !OrdinaryOvertaking(rows, r)
    && (types.Some? ==> r.envelope.eventType in types.value)
  }

  function OrdinaryIds(rows: Rows, types: Option<set<string>>, maxAttempts: nat, now: Time): set<Id> {
    set id | id in rows && OrdinaryClaimable(rows, rows[id], types, maxAttempts, now)
  }

  /** The order (available_at, occurred_at, id). */
  function ByOccurrence(rows: Rows): Id -> Selection.Rank {
    id => if id in rows then Selection.Rank(rows[id].availableAt, rows[id].envelope.occurredAt)
          else Selection.Rank(0, 0)
  }

  function Batch(rows: Rows, types: Option<set<string>>, maxAttempts: nat, limit: nat, now: Time, busy: set<Id>)
    : (r: seq<Id>)
    ensures forall id | id in r :: id in rows && OrdinaryClaimable(rows, rows[id], types, maxAttempts, now)
    ensures |r| == Min(limit, |OrdinaryIds(rows, types, maxAttempts, now) - busy|)
    ensures forall i, j | 0 <= i < j < |r| :: r[i] != r[j]
  {
    Selection.Select(OrdinaryIds(rows, types, maxAttempts, now) - busy, ByOccurrence(rows), limit)
  }

  predicate OccurredEarlier(rows: Rows, a: Id, b: Id)
    requires a in rows && b in rows
  {
    var r, s := rows[a], rows[b];
    || r.availableAt < s.availableAt
    || (r.availableAt == s.availableAt
        && (r.envelope.occurredAt < s.envelope.occurredAt
            || (r.envelope.occurredAt == s.envelope.occurredAt && a <= b)))
  }

  /**
   * A batch is in order, and an eligible row that no other transaction holds is left out only
   * by a full batch of rows that stand before it.
   */
  lemma BatchTakesTheEarliest(rows: Rows, types: Option<set<string>>, maxAttempts: nat, limit: nat, now: Time,
                              busy: set<Id>, i: nat, id: Id)
    requires i < |Batch(rows, types, maxAttempts, limit, now, busy)|
    ensures var ids := Batch(rows, types, maxAttempts, limit, now, busy);
            && ids[i] in rows
            && (forall j | i < j < |ids| :: ids[j] in rows && OccurredEarlier(rows, ids[i], ids[j]))
            && (id in OrdinaryIds(rows, types, maxAttempts, now) - busy && id !in ids ==>
                  |ids| == limit && OccurredEarlier(rows, ids[i], id))
  {
    hide OrdinaryClaimable;
    var ids := Batch(rows, types, maxAttempts, limit, now, busy);
    assert ids[i] in ids;
    forall j | i < j < |ids| ensures ids[j] in rows && OccurredEarlier(rows, ids[i], ids[j]) {
      assert ids[j] in ids && Selection.Precedes(ByOccurrence(rows), ids[i], ids[j]);
    }
    if id in OrdinaryIds(rows, types, maxAttempts, now) - busy && id !in ids {
      assert Selection.Precedes(ByOccurrence(rows), ids[i], id);
    }
  }

  function OrdinaryTaken(r: Row, now: Time): Row {
    r.(status := Processing, attempts := r.attempts + 1, claimedAt := Some(now), publishedAt := None,
       errorCode := None)
  }

  function BatchTx(rows: Rows, batch: seq<Id>, now: Time): Rows {
    map id | id in rows :: if id in batch then OrdinaryTaken(rows[id], now) else rows[id]
  }

  function MarkPublishedTx(rows: Rows, id: Id, at: Time): (Rows, bool) {
    if id !in rows || rows[id].status != Processing || rows[id].token.Some? then (rows, false)
    else
      (rows[id := rows[id].(status := Published, claimedAt := None, publishedAt := Some(at), errorCode := None)],
       true)
  }

  function MarkFailedTx(rows: Rows, id: Id, code: string, availableAt: Time): (Rows, bool) {
    if id !in rows || rows[id].status != Processing then (rows, false)
    else
      (rows[id := rows[id].(status := Failed, claimedAt := None, publishedAt := None, errorCode := Some(code),
                            availableAt := availableAt)], true)
  }

  predicate Stale(r: Row, staleBefore: Time) {
    r.status == Processing && r.claimedAt.Some? && r.claimedAt.value <= staleBefore && r.token.None?
  }

  function StaleIds(rows: Rows, staleBefore: Time): set<Id> {
    set id | id in rows && Stale(rows[id], staleBefore)
  }

  /** The order (claimed_at, id). */
  function ByClaim(rows: Rows): Id -> Selection.Rank {
    id => if id in rows && rows[id].claimedAt.Some? then Selection.Rank(rows[id].claimedAt.value, 0)
          else Selection.Rank(0, 0)
  }

  /** The abandoned ordinary claims one recovery releases. */
  function ToRelease(rows: Rows, staleBefore: Time, limit: nat, busy: set<Id>): (r: seq<Id>)
    ensures forall id | id in r :: id in rows && Stale(rows[id], staleBefore)
    ensures |r| == Min(limit, |StaleIds(rows, staleBefore) - busy|)
    ensures forall i, j | 0 <= i < j < |r| :: r[i] != r[j]
  {
    Selection.Select(StaleIds(rows, staleBefore) - busy, ByClaim(rows), limit)
  }

  predicate ClaimedEarlier(rows: Rows, staleBefore: Time, a: Id, b: Id)
    requires a in StaleIds(rows, staleBefore) && b in StaleIds(rows, staleBefore)
  {
    || rows[a].claimedAt.value < rows[b].claimedAt.value
    || (rows[a].claimedAt.value == rows[b].claimedAt.value && a <= b)
  }

  /** The same for recovery, in the order of the claims. */
  lemma ReleaseTakesTheEarliest(rows: Rows, staleBefore: Time, limit: nat, busy: set<Id>, i: nat, id: Id)
    requires i < |ToRelease(rows, staleBefore, limit, busy)|
    ensures var ids, stale := ToRelease(rows, staleBefore, limit, busy), StaleIds(rows, staleBefore);
            && ids[i] in stale
            && (forall j | i < j < |ids| :: ids[j] in stale && ClaimedEarlier(rows, staleBefore, ids[i], ids[j]))
            && (id in stale - busy && id !in ids ==>
                  |ids| == limit && ClaimedEarlier(rows, staleBefore, ids[i], id))
  {
    var ids, stale := ToRelease(rows, staleBefore, limit, busy), StaleIds(rows, staleBefore);
    assert ids[i] in ids;
    forall j | i < j < |ids| ensures ids[j] in stale && ClaimedEarlier(rows, staleBefore, ids[i], ids[j]) {
      assert ids[j] in ids && Selection.Precedes(ByClaim(rows), ids[i], ids[j]);
    }
    if id in stale - busy && id !in ids {
      assert Selection.Precedes(ByClaim(rows), ids[i], id);
    }
  }

  function Released(r: Row, availableAt: Time): Row {
    r.(status := Failed, claimedAt := None, publishedAt := None, errorCode := Some("claim_expired"),
       availableAt := availableAt)
  }

  function RecoverTx(rows: Rows, stale: seq<Id>, availableAt: Time): Rows {
    map id | id in rows :: if id in stale then Released(rows[id], availableAt) else rows[id]
  }
}
