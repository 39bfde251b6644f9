/** How a row may change in one step, transaction by transaction. */
module RowLemmas {
  import opened Basics
  import opened Canonical
  import opened OutboxModel
  import opened OutboxTransactions
  import opened Protocol

  const MAX_AGE: Time := 82800 * SECOND

  predicate Extends(more: Receipts, less: Receipts) {
    forall i | i in less :: i in more && more[i] == less[i]
  }

  /** A receipt for every recipient the fingerprint commits to. */
  predicate FullyReceipted(r: Row) {
    && r.fingerprint.Some?
    && forall i | 0 <= i < |Committed(r.fingerprint.value)| :: i in r.receipts
  }

  predicate Final(status: Status) {
    status == Published || status == Skipped || status == Uncertain
  }

  /** Facts kept by every row the leased worker owns. */
  predicate LeasedOk(r: Row) {
    && 1 <= r.retryBudget <= 100
    && r.attempts <= r.retryBudget
    && (Waiting(r) ==> r.attempts < r.retryBudget)
    && (r.status == Processing ==> r.token.Some? && r.attempts > 0)
    && (r.attempts > 0 ==> r.deadline.Some?)
    && (r.status == Failed ==> r.deadline.Some? && r.availableAt < r.deadline.value)
    && (r.status == Uncertain ==> r.fingerprint.Some?)
    && (r.status == Published ==> FullyReceipted(r) && r.attempts > 0)
  }

  /** Facts kept by every row of the ordinary runner. */
  predicate OrdinaryOk(r: Row) {
    && r.token.None? && r.fingerprint.None? && r.deadline.None? && r.receipts == map[]
    && r.attempts <= 100
    && (r.status == Pending || r.status == Processing || r.status == Failed || r.status == Published)
    && (r.status == Published || r.status == Processing ==> r.attempts > 0)
  }

  predicate RowOk(r: Row) {
    && (r.token.Some? <==> r.lease.Some?)
    && (if Leased(r) then LeasedOk(r) else OrdinaryOk(r))
  }

  /** What no step ever undoes. */
  predicate Evolves(r: Row, r': Row) {
    && r'.envelope == r.envelope
    && r.attempts <= r'.attempts
    && (r.fingerprint.Some? ==> r'.fingerprint == r.fingerprint)
    && Extends(r'.receipts, r.receipts)
    && (r.deadline.Some? ==> r'.deadline.Some? && r'.deadline.value <= r.deadline.value)
    && (Final(r.status) ==> r' == r)
  }

  /** The worker holding `token` may still finish this row, its lease permitting. */
  predicate Holds(r: Row, token: Token) {
    r.status == Processing && r.token == Some(token)
  }

  predicate Ready(r: Row, types: set<string>, now: Time) {
    && r.envelope.eventType in types
    && ((Waiting(r) && r.availableAt <= now) || LeaseExpired(r, now))
    && r.attempts < r.retryBudget
  }

  /** What a claim transaction can do to a row it does not hand out. */
  predicate SetAside(r: Row, r': Row, types: set<string>, now: Time, settings: Settings) {
    var deadline := ClaimDeadline(r, now, settings);
    || r' == r
    || (Sweepable(r, types, now) && r' == Expire(r))
    || (Ready(r, types, now) && deadline <= now && r' == TooOld(r, deadline))
  }

  /** What it does to the row it hands out. */
  predicate HandedOut(id: Id, r: Row, r': Row, claim: Claim, types: set<string>, now: Time, settings: Settings,
                      token: Token)
  {
    var deadline := ClaimDeadline(r, now, settings);
    && Ready(r, types, now) && deadline > now
    && r' == Taken(r, now, deadline, settings, token)
    && claim == ClaimOf(id, r', deadline, token)
  }

  lemma PickedIsUntouched(rows: Rows, ids: seq<Id>, types: set<string>, now: Time, busy: set<Id>)
    requires ClaimIds(Swept(rows, ids), types, now, busy) != {}
    ensures var id := First(Swept(rows, ids), ClaimIds(Swept(rows, ids), types, now, busy));
            id in rows && id !in ids && Ready(rows[id], types, now) && !Overtaking(Swept(rows, ids), rows[id])
  {
    var swept := Swept(rows, ids);
    var id := First(swept, ClaimIds(swept, types, now, busy));
    assert Claimable(swept, swept[id], types, now);
    assert swept[id] == if id in ids then Expire(rows[id]) else rows[id];
  }

  lemma SweepIsSetAside(rows: Rows, types: set<string>, now: Time, settings: Settings, busy: set<Id>)
    ensures var swept := Swept(rows, SweepIds(rows, types, now, busy));
            && swept.Keys == rows.Keys
            && forall id | id in rows :: SetAside(rows[id], swept[id], types, now, settings)
  {
  }

  /** Which rows a claim transaction changes, and how. */
  lemma ClaimRowsMeaning(rows: Rows, types: set<string>, now: Time, settings: Settings, busySweep: set<Id>,
                         busyPick: set<Id>, token: Token)
    ensures var (rows', claim) := ClaimRows(rows, types, now, settings, busySweep, busyPick, token);
            && rows'.Keys == rows.Keys
            && (claim.Some? ==> claim.value.messageId in rows)
            && (forall id | id in rows ::
                  if claim.Some? && id == claim.value.messageId
                  then HandedOut(id, rows[id], rows'[id], claim.value, types, now, settings, token)
                  else SetAside(rows[id], rows'[id], types, now, settings))
  {
    var ids := SweepIds(rows, types, now, busySweep);
    var swept := Swept(rows, ids);
    var ready := ClaimIds(swept, types, now, busyPick);
    SweepIsSetAside(rows, types, now, settings, busySweep);
    if ready != {} {
      PickedIsUntouched(rows, ids, types, now, busyPick);
      SweptElsewhere(rows, ids, First(swept, ready));
    }
    hide SweepIds, Swept, ClaimIds, SetAside, Taken, TooOld;
    PickMeaning(rows, swept, types, now, settings, busyPick, token);
  }

  lemma SweptElsewhere(rows: Rows, ids: seq<Id>, id: Id)
    requires id in rows && id !in ids
    ensures id in Swept(rows, ids) && Swept(rows, ids)[id] == rows[id]
  {
  }

  /** The pick after a sweep that left the picked row alone. */
  lemma PickMeaning(rows: Rows, swept: Rows, types: set<string>, now: Time, settings: Settings, busy: set<Id>,
                    token: Token)
    requires swept.Keys == rows.Keys
    requires forall id | id in rows :: SetAside(rows[id], swept[id], types, now, settings)
    requires ClaimIds(swept, types, now, busy) <= swept.Keys
    requires var ready := ClaimIds(swept, types, now, busy);
             ready != {} ==> var id := First(swept, ready);
                             id in rows && swept[id] == rows[id] && Ready(rows[id], types, now)
    ensures var (rows', claim) := PickRows(swept, types, now, settings, busy, token);
            && rows'.Keys == rows.Keys
            && (claim.Some? ==> claim.value.messageId in rows)
            && (forall id | id in rows ::
                  if claim.Some? && id == claim.value.messageId
                  then HandedOut(id, rows[id], rows'[id], claim.value, types, now, settings, token)
                  else SetAside(rows[id], rows'[id], types, now, settings))
  {
    hide ClaimIds, Taken, TooOld, Ready, ByAvailability;
  }

  lemma SetAsideEvolves(r: Row, r': Row, now: Time, settings: Settings)
    requires RowOk(r) && settings.Valid() && SetAside(r, r', LEASED_TYPES, now, settings)
    ensures RowOk(r') && Evolves(r, r')
    ensures !Leased(r) ==> r' == r
    ensures r' != r ==> r'.status != Processing
    ensures r'.token.Some? ==> r'.token == r.token
    ensures r.deadline.None? && r'.deadline.Some? ==> r'.deadline.value <= now + MAX_AGE
  {
  }

  lemma HandedOutEvolves(id: Id, r: Row, r': Row, claim: Claim, now: Time, settings: Settings, token: Token)
    requires RowOk(r) && settings.Valid() && HandedOut(id, r, r', claim, LEASED_TYPES, now, settings, token)
    ensures RowOk(r') && Evolves(r, r') && Leased(r)
    ensures Holds(r', token)
    ensures r.deadline.None? && r'.deadline.Some? ==> r'.deadline.value <= now + MAX_AGE
  {
  }

  lemma BindEvolves(r: Row, claim: Claim, fingerprint: Fingerprint, expiresAt: Time, now: Time)
    requires RowOk(r) && Leased(r) && Holds(r, claim.token)
    requires r.deadline == Some(claim.deadline)
    ensures var r' := BoundRow(r, claim, fingerprint, expiresAt, now);
            && RowOk(r') && Evolves(r, r')
            && (r'.status == Processing <==> BindDecision(r, claim, fingerprint, expiresAt, now) == Allowed)
            && (r'.status == Processing ==> r'.fingerprint == Some(fingerprint) && r'.token == r.token)
            && (r'.status != Processing ==> r'.token.None?)
            && r'.receipts == r.receipts && r'.attempts == r.attempts && r'.retryBudget == r.retryBudget
  {
  }

  lemma FinishEvolves(r: Row, claim: Claim, outcome: Outcome, delay: Time, now: Time)
    requires RowOk(r) && Leased(r) && Holds(r, claim.token)
    requires outcome.receipts == map[] || Extends(outcome.receipts, r.receipts)
    requires outcome.kind == Accepted ==> FullyReceipted(r.(receipts := outcome.receipts))
    requires outcome.kind == Unsure ==> r.fingerprint.Some?
    ensures var r' := FinishedRow(r, claim, outcome, delay, now);
            && RowOk(r') && Evolves(r, r') && r'.token.None? && r'.status != Processing
  {
  }

  lemma ReplayEvolves(rows: Rows, id: Id, prepared: Preparation, now: Time)
    requires Replayable(rows, id, LEASED_TYPES, prepared, now)
    requires RowOk(rows[id])
    ensures var r' := ReplayedRow(rows[id], now);
            RowOk(r') && Evolves(rows[id], r') && r'.token.None? && r'.status != Processing
  {
  }

  lemma OrdinaryEvolves(r: Row, r': Row, now: Time, at: Time, code: string)
    requires RowOk(r)
    requires Leased(r) ==> r.token.None? && r.status == Processing
    requires || r' == r
             || (Waiting(r) && r.attempts < 100 && r' == OrdinaryTaken(r, now))
             || (r.status == Processing
                 && r' == r.(status := Published, claimedAt := None, publishedAt := Some(at), errorCode := None))
             || (r.status == Processing
                 && r' == r.(status := Failed, claimedAt := None, publishedAt := None, errorCode := Some(code),
                             availableAt := at))
             || (r.status == Processing && r' == Released(r, at))
    ensures RowOk(r') && Evolves(r, r')
  {
  }

  /**
   * The ordinary runner's two marks on a row that a leased worker holds: mark_published leaves
   * it alone, but mark_failed takes it from the worker while its lease lasts, and keeps the
   * row facts only if an attempt is left and the new time lies before the deadline.
   */
  lemma MarksOnAClaimedRow(rows: Rows, id: Id, token: Token, at: Time, code: string)
    requires id in rows && Leased(rows[id]) && RowOk(rows[id]) && Holds(rows[id], token)
    ensures MarkPublishedTx(rows, id, at) == (rows, false)
    ensures var (marked, done) := MarkFailedTx(rows, id, code, at);
            && done && id in marked && !Holds(marked[id], token) && marked[id].lease == rows[id].lease
            && rows[id].deadline.Some?
            && (RowOk(marked[id]) <==> rows[id].attempts < rows[id].retryBudget && at < rows[id].deadline.value)
  {
  }
}
