/**
 * What each outbox transaction must answer, said in the columns of the tables.  Nothing here
 * goes through the predicates the transactions are built from, so these theorems are an
 * independent account of the same queries and assignments.
 */
module OutboxAnswers {
  import opened Basics
  import opened Canonical
  import opened OutboxModel
  import opened OutboxTransactions
  import Selection

  predicate NotLater(a: Time, x: Id, b: Time, y: Id) {
    a < b || (a == b && x <= y)
  }

  // ---- leased claim ----------------------------------------------------------------

  /** Waiting, or abandoned in delivery, and out of attempts or past the deadline. */
  predicate Hopeless(r: Row, types: set<string>, now: Time) {
    && r.envelope.eventType in types
    && (r.status == Pending || r.status == Failed
        || (r.status == Processing && r.lease.Some? && r.lease.value <= now))
    && (r.attempts >= r.retryBudget || (r.deadline.Some? && r.deadline.value <= now))
  }

  /** Every earlier version of the message's aggregate is published or skipped. */
  predicate InTurn(rows: Rows, r: Row) {
    forall e | e in rows && rows[e].envelope.aggregate == r.envelope.aggregate
               && rows[e].envelope.version < r.envelope.version ::
      rows[e].status == Published || rows[e].status == Skipped
  }

  /** Waiting and available, or abandoned in delivery, with an attempt left and its turn come. */
  predicate Due(rows: Rows, id: Id, types: set<string>, now: Time) {
    && id in rows
    && var r := rows[id];
    && r.envelope.eventType in types
    && (((r.status == Pending || r.status == Failed) && r.availableAt <= now)
        || (r.status == Processing && r.lease.Some? && r.lease.value <= now))
    && r.attempts < r.retryBudget
    && InTurn(rows, r)
  }

  /** Due, not locked elsewhere, and before every other such row by availability and id. */
  ghost predicate StandsFirst(rows: Rows, f: Id, types: set<string>, now: Time, busy: set<Id>) {
    && f !in busy && Due(rows, f, types, now)
    && forall x | x !in busy && Due(rows, x, types, now) :: NotLater(rows[f].availableAt, f, rows[x].availableAt, x)
  }

  /** When a claimed row's delivery ends: at its deadline, set on its first claim, or earlier at its age limit. */
  function Cutoff(r: Row, now: Time, settings: Settings): Time {
    var age := settings.maxAgeSeconds * SECOND;
    var limit := r.envelope.occurredAt + age;
    if r.deadline.Some? && r.deadline.value <= limit then r.deadline.value
    else if r.deadline.None? && now + age <= limit then now + age
    else limit
  }

  lemma DueIsClaimable(rows: Rows, types: set<string>, now: Time, busy: set<Id>)
    ensures forall id :: id in ClaimIds(rows, types, now, busy) <==> id !in busy && Due(rows, id, types, now)
  {
    forall id ensures id in ClaimIds(rows, types, now, busy) <==> id !in busy && Due(rows, id, types, now) {
      if id in rows {
        assert Overtaking(rows, rows[id]) <==> !InTurn(rows, rows[id]);
      }
    }
  }

  /**
   * The sweep gives up hopeless rows that no other transaction holds, in the order of their
   * ids, and leaves one out only after a hundred before it; no other row changes.
   */
  lemma SweepAnswers(rows: Rows, types: set<string>, now: Time, busy: set<Id>, id: Id)
    requires id in rows
    ensures var ids := SweepIds(rows, types, now, busy);
            var swept := Swept(rows, ids);
            && swept.Keys == rows.Keys
            && (id in ids ==> id !in busy && Hopeless(rows[id], types, now))
            && (Hopeless(rows[id], types, now) && id !in busy && id !in ids ==>
                  |ids| == 100 && forall x | x in ids :: x < id)
            && swept[id] == if id !in ids then rows[id]
                            else rows[id].(status := if rows[id].fingerprint.Some? then Uncertain else Dead,
                                           errorCode := Some("delivery_budget_expired"), token := None, lease := None)
  {
    var all := (set x | x in rows && Sweepable(rows[x], types, now)) - busy;
    var ids := SweepIds(rows, types, now, busy);
    assert Sweepable(rows[id], types, now) <==> Hopeless(rows[id], types, now);
    if Hopeless(rows[id], types, now) && id !in busy && id !in ids {
      assert id in all;
      LeftOutOnlyWhenFull(all, 100, id);
    }
  }

  lemma LeftOutOnlyWhenFull(ids: set<Id>, n: nat, id: Id)
    requires id in ids && id !in LowestIds(ids, n)
    ensures |LowestIds(ids, n)| == n
  {
    var r := LowestIds(ids, n);
    if |r| == |ids| {
      Selection.AllTaken(ids, r);
    }
  }

  /** A paused group claims nothing: only its heartbeat moves. */
  lemma PausedAnswers(db: Db, group: string, types: set<string>, now: Time, settings: Settings, busySweep: set<Id>,
                      busyPick: set<Id>, token: Token)
    requires group in db.controls && db.controls[group].paused
    ensures ClaimTx(db, group, types, now, settings, busySweep, busyPick, token)
            == (Db(db.rows, db.controls[group := Control(true, now)]), None)
  {
  }

  /** What is left of the row that stood first, and the claim on it, if its window is still open. */
  ghost predicate Took(r: Row, r': Row, id: Id, claim: Option<Claim>, now: Time, settings: Settings, token: Token) {
    var cutoff := Cutoff(r, now, settings);
    if cutoff <= now then
      && claim.None?
      && r' == r.(deadline := Some(cutoff), status := if r.fingerprint.Some? then Uncertain else Dead,
                  errorCode := Some("delivery_too_old"))
    else
      var budget := if r.attempts == 0 then settings.maxAttempts else r.retryBudget;
      && r' == r.(deadline := Some(cutoff), retryBudget := budget, status := Processing,
                  lease := Some(now + settings.leaseSeconds * SECOND), claimedAt := Some(now),
                  attempts := r.attempts + 1, token := Some(token))
      && claim == Some(Claim(id, token, if r.envelope.decodes then Some(r.envelope) else None, r.attempts + 1, budget,
                             cutoff, r.receipts))
  }

  /** The due row that stands first is taken; nothing happens only when no unlocked row is due. */
  ghost predicate TookFirst(rows: Rows, rows': Rows, claim: Option<Claim>, types: set<string>, now: Time,
                            settings: Settings, busy: set<Id>, token: Token)
  {
    if exists id :: id !in busy && Due(rows, id, types, now) then
      exists f :: && StandsFirst(rows, f, types, now, busy) && f in rows' && rows' == rows[f := rows'[f]]
                  && Took(rows[f], rows'[f], f, claim, now, settings, token)
    else
      rows' == rows && claim.None?
  }

  lemma TookMeansTook(r: Row, id: Id, now: Time, settings: Settings, token: Token)
    ensures var deadline := ClaimDeadline(r, now, settings);
            if deadline <= now then Took(r, TooOld(r, deadline), id, None, now, settings, token)
            else
              var row := Taken(r, now, deadline, settings, token);
              Took(r, row, id, Some(ClaimOf(id, row, deadline, token)), now, settings, token)
  {
  }

  lemma PickAnswers(rows: Rows, types: set<string>, now: Time, settings: Settings, busy: set<Id>, token: Token)
    ensures var (rows', claim) := PickRows(rows, types, now, settings, busy, token);
            TookFirst(rows, rows', claim, types, now, settings, busy, token)
  {
    var ready := ClaimIds(rows, types, now, busy);
    DueIsClaimable(rows, types, now, busy);
    assert ready <= rows.Keys;
    hide ClaimIds, Due, ByAvailability, Took, Taken, TooOld, ClaimOf, ClaimDeadline;
    if ready != {} {
      var f := First(rows, ready);
      assert StandsFirst(rows, f, types, now, busy);
      TookMeansTook(rows[f], f, now, settings, token);
      var rows' := PickRows(rows, types, now, settings, busy, token).0;
      assert f in rows' && rows' == rows[f := rows'[f]];
    }
  }

  /**
   * An unpaused claim sweeps and then takes the due row that stands first, handing it out or
   * giving it up as too old; it answers nothing only when no unlocked row is due.
   */
  lemma ClaimAnswers(db: Db, group: string, types: set<string>, now: Time, settings: Settings, busySweep: set<Id>,
                     busyPick: set<Id>, token: Token)
    requires group in db.controls ==> !db.controls[group].paused
    ensures var (db', claim) := ClaimTx(db, group, types, now, settings, busySweep, busyPick, token);
            && db'.controls == db.controls[group := Control(false, now)]
            && TookFirst(Swept(db.rows, SweepIds(db.rows, types, now, busySweep)), db'.rows, claim, types, now,
                         settings, busyPick, token)
  {
    hide Swept, SweepIds, PickRows, TookFirst;
    PickAnswers(Swept(db.rows, SweepIds(db.rows, types, now, busySweep)), types, now, settings, busyPick, token);
  }

  /** A sweep makes no row due. */
  lemma SweepMakesNothingDue(rows: Rows, ids: seq<Id>, id: Id, types: set<string>, now: Time)
    requires Due(Swept(rows, ids), id, types, now)
    ensures Due(rows, id, types, now)
  {
    var swept := Swept(rows, ids);
    forall e | e in rows && rows[e].envelope.aggregate == rows[id].envelope.aggregate
               && rows[e].envelope.version < rows[id].envelope.version
      ensures rows[e].status == Published || rows[e].status == Skipped
    {
      assert e in swept && swept[e].envelope == rows[e].envelope;
    }
  }

  // ---- bind and finish -------------------------------------------------------------

  /** The claim's token is on the row, in delivery, under a lease that lasts beyond the instant. */
  predicate Fences(rows: Rows, claim: Claim, at: Time) {
    && claim.messageId in rows
    && var r := rows[claim.messageId];
    r.token == Some(claim.token) && r.status == Processing && r.lease.Some? && at < r.lease.value
  }

  /** The group, if it has a control row, is paused with its heartbeat kept; the others are as they were. */
  predicate Stops(controls: map<string, Control>, controls': map<string, Control>, group: string) {
    && controls'.Keys == controls.Keys
    && (forall g | g in controls && g != group :: controls'[g] == controls[g])
    && (group in controls ==> controls'[group].paused && controls'[group].heartbeatAt == controls[group].heartbeatAt)
  }

  /** The row of the claim is the only one written. */
  predicate OnlyRow(rows: Rows, rows': Rows, id: Id) {
    rows'.Keys == rows.Keys && forall x | x in rows && x != id :: rows'[x] == rows[x]
  }

  /** A bind that does not hold the fence does nothing; otherwise content, then deadline, decide. */
  lemma BindAnswers(db: Db, group: string, claim: Claim, fingerprint: Fingerprint, expiresAt: Time, ownedAt: Time,
                    now: Time)
    ensures var (db', allowed) := BindTx(db, group, claim, fingerprint, expiresAt, ownedAt, now);
            if !Fences(db.rows, claim, ownedAt) then db' == db && !allowed
            else
              && OnlyRow(db.rows, db'.rows, claim.messageId)
              && var r, r' := db.rows[claim.messageId], db'.rows[claim.messageId];
              if r.fingerprint.Some? && r.fingerprint != Some(fingerprint) then
                && !allowed && Stops(db.controls, db'.controls, group)
                && r' == r.(status := Blocked, errorCode := Some("delivery_content_changed"), token := None,
                            lease := None)
              else
                && db'.controls == db.controls
                && r'.deadline.Some? && r'.deadline.value <= claim.deadline && r'.deadline.value <= expiresAt
                && r'.deadline.value in {claim.deadline, expiresAt}
                && (allowed <==> now < claim.deadline && now < expiresAt)
                && r' == if allowed then r.(deadline := r'.deadline, fingerprint := Some(fingerprint))
                         else r.(deadline := r'.deadline,
                                 status := if r.fingerprint.Some? then Uncertain else Skipped,
                                 errorCode := Some("delivery_expired"), token := None, lease := None)
  {
  }

  /** An outcome that asks for another attempt, and has one. */
  predicate TriesAgain(kind: Kind, r: Row) {
    (kind == Retry || kind == Unsure) && r.attempts < r.retryBudget
  }

  /** How a finish that holds the fence ends the row, from the outcome and the row alone. */
  ghost predicate EndsAs(status: Status, kind: Kind, r: Row, late: bool) {
    && (status == Published <==> kind == Accepted)
    && (status == Skipped <==> kind == Skip)
    && (status == Blocked <==> kind == Block)
    && (status == Dead <==>
          || kind == Permanent || (kind == Retry && r.attempts >= r.retryBudget)
          || (TriesAgain(kind, r) && late && r.fingerprint.None?))
    && (status == Uncertain <==>
          || (kind == Unsure && r.attempts >= r.retryBudget)
          || (TriesAgain(kind, r) && late && r.fingerprint.Some?))
    && (status == Failed <==> TriesAgain(kind, r) && !late)
  }

  /** Receipts of the outcome are stored, those it does not name stay. */
  predicate Merged(before: Receipts, added: Receipts, after: Receipts) {
    && (forall i | i in added :: i in after && after[i] == added[i])
    && (forall i | i in before && i !in added :: i in after && after[i] == before[i])
    && (forall i | i in after :: i in before || i in added)
  }

  /** A finish that does not hold the fence does nothing; otherwise it ends the row and the claim. */
  lemma FinishAnswers(db: Db, group: string, claim: Claim, outcome: Outcome, delay: Time, ownedAt: Time, now: Time)
    ensures var (db', applied) := FinishTx(db, group, claim, outcome, delay, ownedAt, now);
            && applied == Fences(db.rows, claim, ownedAt)
            && if !applied then db' == db
               else
                 && OnlyRow(db.rows, db'.rows, claim.messageId)
                 && var r, r' := db.rows[claim.messageId], db'.rows[claim.messageId];
                 && EndsAs(r'.status, outcome.kind, r,
                           now + delay >= if r.deadline.Some? then r.deadline.value else claim.deadline)
                 && Merged(r.receipts, outcome.receipts, r'.receipts)
                 && r' == r.(receipts := r'.receipts, status := r'.status, availableAt := now + delay,
                             errorCode := Some(outcome.code),
                             publishedAt := if outcome.kind == Accepted then Some(now) else None,
                             token := None, lease := None, claimedAt := None)
                 && (if outcome.kind == Block then Stops(db.controls, db'.controls, group)
                     else db'.controls == db.controls)
  {
    if Fences(db.rows, claim, ownedAt) {
      EndAnswers(db.rows[claim.messageId], claim, outcome, now + delay);
    }
    hide FinishStatus, EndsAs;
  }

  lemma EndAnswers(r: Row, claim: Claim, outcome: Outcome, availableAt: Time)
    ensures EndsAs(FinishStatus(r, claim, outcome, availableAt), outcome.kind, r,
                   availableAt >= if r.deadline.Some? then r.deadline.value else claim.deadline)
  {
  }

  /** The delay is at least a second and at least the provider's, and at most the larger of them and the ceiling. */
  lemma DelayAnswers(attempt: int, outcome: Outcome, jitter: Time, settings: Settings)
    ensures NextDelay(attempt, outcome, jitter).None? <==> attempt < 1
    ensures attempt >= 1 && settings.Valid() && 0 <= jitter <= RetryCeiling(attempt, settings) ==>
              var delay := NextDelay(attempt, outcome, jitter).value;
              && delay >= SECOND && delay >= outcome.retryAfter * SECOND && delay >= jitter
              && (delay <= settings.retryMaxSeconds * SECOND || delay <= outcome.retryAfter * SECOND)
              && (attempt == 1 ==>
                    delay <= settings.retryBaseSeconds * SECOND || delay <= outcome.retryAfter * SECOND)
  {
  }

  /** The ceiling doubles with each attempt, for twenty attempts, until it reaches the maximum. */
  lemma CeilingDoubles(attempt: int, settings: Settings)
    requires attempt >= 1 && settings.Valid()
    ensures RetryCeiling(1, settings) == settings.retryBaseSeconds * SECOND
    ensures RetryCeiling(attempt + 1, settings)
            == if attempt > 20 then RetryCeiling(attempt, settings)
               else Min(settings.retryMaxSeconds * SECOND, 2 * RetryCeiling(attempt, settings))
  {
    var power := Pow2(Min(attempt - 1, 20));
    assert RetryCeiling(attempt, settings) == Min(settings.retryMaxSeconds, settings.retryBaseSeconds * power) * SECOND;
    if attempt <= 20 {
      Pow2Doubles(attempt);
      hide Pow2;
      Doubled(settings.retryBaseSeconds, power);
      MinDoubles(settings.retryMaxSeconds, settings.retryBaseSeconds * power);
    }
  }

  lemma Doubled(x: nat, p: nat)
    ensures x * (2 * p) == 2 * (x * p) && x * p >= 0
  {
  }

  lemma MinDoubles(m: int, x: int)
    requires m >= 1 && x >= 0
    ensures Min(m, 2 * x) * SECOND == Min(m * SECOND, 2 * (Min(m, x) * SECOND))
  {
  }

  lemma Pow2Doubles(n: nat)
    requires n >= 1
    ensures Pow2(n) == 2 * Pow2(n - 1)
  {
  }

  // ---- operators and the ordinary runner -------------------------------------------

  /** A staged message is pending, with nothing done and five attempts until its first claim sets its budget. */
  lemma NewRowAnswers(envelope: Envelope, availableAt: Time)
    ensures var r := NewRow(envelope, availableAt);
            && r.envelope == envelope && r.status == Pending && r.attempts == 0 && r.availableAt == availableAt
            && r.retryBudget == 5 && r.receipts == map[] && r.fingerprint.None? && r.token.None? && r.lease.None?
            && r.deadline.None? && r.claimedAt.None? && r.publishedAt.None? && r.errorCode.None?
  {
  }

  /** Replay serves dead and blocked messages alike, within window and lifetime, with their content. */
  lemma ReplayAnswers(rows: Rows, id: Id, types: set<string>, prepared: Preparation, now: Time)
    ensures var (rows', done) := ReplayTx(rows, id, types, prepared, now);
            && (done <==>
                  && id in rows && rows[id].envelope.eventType in types
                  && (rows[id].status == Dead || rows[id].status == Blocked)
                  && rows[id].deadline.Some? && now < rows[id].deadline.value
                  && rows[id].attempts < 100 && rows[id].envelope.decodes
                  && prepared.Ready? && now < prepared.expiresAt
                  && (rows[id].fingerprint.None? || rows[id].fingerprint == Some(prepared.fingerprint)))
            && (!done ==> rows' == rows)
            && (done ==>
                  && OnlyRow(rows, rows', id)
                  && rows'[id] == rows[id].(retryBudget := rows'[id].retryBudget, status := Pending,
                                            availableAt := now, token := None, lease := None)
                  && rows[id].attempts < rows'[id].retryBudget <= 100
                  && (rows'[id].retryBudget == 100 || rows'[id].retryBudget == rows[id].attempts + 3))
  {
  }

  /** Waiting, available, unclaimed, of a wanted ordinary type, with an attempt left and its turn come. */
  predicate DueOrdinary(rows: Rows, id: Id, types: Option<set<string>>, maxAttempts: nat, now: Time) {
    && id in rows
    && var r := rows[id];
    && (r.status == Pending || r.status == Failed) && r.availableAt <= now
    && r.attempts < maxAttempts && r.token.None?
    && r.envelope.eventType != "email_challenge_requested"
    && (types.Some? ==> r.envelope.eventType in types.value)
    && forall e | e in rows && rows[e].envelope.aggregate == r.envelope.aggregate
                  && rows[e].envelope.version < r.envelope.version :: rows[e].status == Published
  }

  /** A due, unlocked row is in the batch unless the batch is full of rows before it, and only such rows are. */
  lemma BatchAnswers(rows: Rows, types: Option<set<string>>, maxAttempts: nat, limit: nat, now: Time, busy: set<Id>,
                     id: Id)
    ensures var ids := Batch(rows, types, maxAttempts, limit, now, busy);
            && |ids| <= limit
            && (id in ids ==> id !in busy && DueOrdinary(rows, id, types, maxAttempts, now))
            && (id !in busy && DueOrdinary(rows, id, types, maxAttempts, now) && id !in ids ==>
                  |ids| == limit && forall x | x in ids :: x in rows && OccurredEarlier(rows, x, id))
  {
    var ids := Batch(rows, types, maxAttempts, limit, now, busy);
    if id in rows {
      assert OrdinaryOvertaking(rows, rows[id])
        <==> !forall e | e in rows && rows[e].envelope.aggregate == rows[id].envelope.aggregate
                         && rows[e].envelope.version < rows[id].envelope.version :: rows[e].status == Published;
      assert OrdinaryClaimable(rows, rows[id], types, maxAttempts, now)
        <==> DueOrdinary(rows, id, types, maxAttempts, now);
      assert id in OrdinaryIds(rows, types, maxAttempts, now) <==> DueOrdinary(rows, id, types, maxAttempts, now);
    }
    forall x | x in ids && id !in busy && DueOrdinary(rows, id, types, maxAttempts, now) && id !in ids
      ensures x in rows && OccurredEarlier(rows, x, id)
    {
      var i :| 0 <= i < |ids| && ids[i] == x;
      BatchTakesTheEarliest(rows, types, maxAttempts, limit, now, busy, i, id);
    }
  }

  /** What the ordinary runner's writes leave of a row. */
  lemma OrdinaryAnswers(rows: Rows, ids: seq<Id>, id: Id, code: string, at: Time)
    requires id in rows
    ensures BatchTx(rows, ids, at).Keys == rows.Keys == RecoverTx(rows, ids, at).Keys
    ensures BatchTx(rows, ids, at)[id]
            == if id !in ids then rows[id]
               else rows[id].(status := Processing, attempts := rows[id].attempts + 1, claimedAt := Some(at),
                              publishedAt := None, errorCode := None)
    ensures RecoverTx(rows, ids, at)[id]
            == if id !in ids then rows[id]
               else rows[id].(status := Failed, claimedAt := None, publishedAt := None,
                              errorCode := Some("claim_expired"), availableAt := at)
    ensures MarkPublishedTx(rows, id, at)
            == if rows[id].status != Processing || rows[id].token.Some? then (rows, false)
               else (rows[id := rows[id].(status := Published, claimedAt := None, publishedAt := Some(at),
                                          errorCode := None)], true)
    ensures MarkFailedTx(rows, id, code, at)
            == if rows[id].status != Processing then (rows, false)
               else (rows[id := rows[id].(status := Failed, claimedAt := None, publishedAt := None,
                                          errorCode := Some(code), availableAt := at)], true)
  {
  }

  /** A stale, unclaimed, unlocked row is released unless the limit is filled by rows claimed before it. */
  lemma ReleaseAnswers(rows: Rows, staleBefore: Time, limit: nat, busy: set<Id>, id: Id)
    requires id in rows
    ensures var ids := ToRelease(rows, staleBefore, limit, busy);
            var stale := && rows[id].status == Processing && rows[id].token.None?
                         && rows[id].claimedAt.Some? && rows[id].claimedAt.value <= staleBefore;
            && |ids| <= limit
            && (id in ids ==> stale && id !in busy)
            && (stale && id !in busy && id !in ids ==>
                  && |ids| == limit
                  && forall x | x in ids :: x in rows && rows[x].claimedAt.Some?
                                            && NotLater(rows[x].claimedAt.value, x, rows[id].claimedAt.value, id))
  {
    var ids := ToRelease(rows, staleBefore, limit, busy);
    assert id in StaleIds(rows, staleBefore) <==> Stale(rows[id], staleBefore);
    forall x | x in ids && id in StaleIds(rows, staleBefore) - busy && id !in ids
      ensures && x in rows && rows[x].claimedAt.Some?
              && NotLater(rows[x].claimedAt.value, x, rows[id].claimedAt.value, id)
    {
      var i :| 0 <= i < |ids| && ids[i] == x;
      ReleaseTakesTheEarliest(rows, staleBefore, limit, busy, i, id);
    }
  }
}
