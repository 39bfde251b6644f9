/**
 * What each job operation must answer, said in the columns of the table and not through the
 * predicates the operations are built from.
 */
module JobAnswers {
  import opened Basics
  import opened Jobs
  import Names

  /** Waiting for a worker, available, and with an attempt left. */
  predicate Due(t: Table, id: Id, now: Time) {
    && id in t && (t[id].status == Pending || t[id].status == Retrying)
    && t[id].availableAt <= now && t[id].attempts < t[id].maxAttempts
  }

  /** Running under a lease that has run out. */
  predicate Lost(t: Table, id: Id, now: Time) {
    id in t && t[id].status == Running && t[id].lease.Some? && t[id].lease.value <= now
  }

  /** Running under this very token and a lease that lasts. */
  predicate OwnedBy(t: Table, id: Id, token: Token, now: Time) {
    id in t && t[id].status == Running && t[id].token == Some(token) && t[id].lease.Some? && now < t[id].lease.value
  }

  predicate Before(t: Table, a: Id, b: Id)
    requires a in t && b in t
  {
    || t[a].availableAt < t[b].availableAt
    || (t[a].availableAt == t[b].availableAt && t[a].createdAt < t[b].createdAt)
    || (t[a].availableAt == t[b].availableAt && t[a].createdAt == t[b].createdAt && a <= b)
  }

  /** A due job that nobody has locked is claimed unless a full claim of jobs before it is, and only such jobs are. */
  lemma ClaimAnswers(t: Table, now: Time, busy: set<Id>, limit: nat, id: Id)
    ensures var ids := ToClaim(t, now, busy, limit);
            && |ids| <= limit && (forall i, j | 0 <= i < j < |ids| :: ids[i] != ids[j])
            && (id in ids ==> Due(t, id, now) && id !in busy)
            && (Due(t, id, now) && id !in busy && id !in ids ==>
                  |ids| == limit && forall x | x in ids :: x in t && Before(t, x, id))
  {
    var ids := ToClaim(t, now, busy, limit);
    assert id in ClaimableIds(t, now) <==> Due(t, id, now);
    if id in ids {
      var k :| 0 <= k < |ids| && ids[k] == id;
      ClaimedAreFree(t, now, busy, limit, k);
    }
    forall x | x in ids && Due(t, id, now) && id !in busy && id !in ids ensures x in t && Before(t, x, id) {
      var i :| 0 <= i < |ids| && ids[i] == x;
      ClaimTakesTheEarliest(t, now, busy, limit, i, id);
    }
    if Due(t, id, now) && id !in busy && id !in ids && |ids| == 0 {
      NothingClaimed(t, now, busy, limit, id);
    }
    if Due(t, id, now) && id !in busy && id !in ids && |ids| > 0 {
      ClaimTakesTheEarliest(t, now, busy, limit, 0, id);
    }
  }

  lemma ClaimedAreFree(t: Table, now: Time, busy: set<Id>, limit: nat, k: nat)
    requires k < |ToClaim(t, now, busy, limit)|
    ensures ToClaim(t, now, busy, limit)[k] !in busy
  {
    assert ToClaim(t, now, busy, limit)[k] in ToClaim(t, now, busy, limit);
  }

  lemma NothingClaimed(t: Table, now: Time, busy: set<Id>, limit: nat, id: Id)
    requires id in ClaimableIds(t, now) - busy && |ToClaim(t, now, busy, limit)| == 0
    ensures limit == 0
  {
  }

  /** The same for recovery, in the order of the expired leases. */
  lemma RecoveryAnswers(t: Table, now: Time, busy: set<Id>, limit: nat, id: Id)
    ensures var ids := ToRecover(t, now, busy, limit);
            && |ids| <= limit && (forall i, j | 0 <= i < j < |ids| :: ids[i] != ids[j])
            && (id in ids ==> Lost(t, id, now) && id !in busy)
            && (Lost(t, id, now) && id !in busy && id !in ids ==>
                  && |ids| == limit
                  && forall x | x in ids ::
                       && x in t && t[x].lease.Some?
                       && (t[x].lease.value < t[id].lease.value || (t[x].lease == t[id].lease && x <= id)))
  {
    var ids := ToRecover(t, now, busy, limit);
    assert id in AbandonedIds(t, now) <==> Lost(t, id, now);
    if id in ids {
      var k :| 0 <= k < |ids| && ids[k] == id;
      RecoveredAreFree(t, now, busy, limit, k);
    }
    if Lost(t, id, now) && id !in busy && id !in ids {
      NothingRecovered(t, now, busy, limit, id);
      forall x | x in ids
        ensures && x in t && t[x].lease.Some?
                && (t[x].lease.value < t[id].lease.value || (t[x].lease == t[id].lease && x <= id))
      {
        var i :| 0 <= i < |ids| && ids[i] == x;
        RecoveryTakesTheEarliest(t, now, busy, limit, i, id);
      }
    }
  }

  lemma RecoveredAreFree(t: Table, now: Time, busy: set<Id>, limit: nat, k: nat)
    requires k < |ToRecover(t, now, busy, limit)|
    ensures ToRecover(t, now, busy, limit)[k] !in busy
  {
    assert ToRecover(t, now, busy, limit)[k] in ToRecover(t, now, busy, limit);
  }

  lemma NothingRecovered(t: Table, now: Time, busy: set<Id>, limit: nat, id: Id)
    requires id in AbandonedIds(t, now) - busy && id !in ToRecover(t, now, busy, limit)
    ensures |ToRecover(t, now, busy, limit)| == limit
  {
  }

  /** Without its lease: no owner, no token, no expiry. */
  predicate LeaseGone(j: Job) {
    j.owner.None? && j.token.None? && j.lease.None?
  }

  /** What the job was asked to do, and by whom, never changes. */
  predicate SameTask(j: Job, j': Job) {
    && j'.kind == j.kind && j'.payload == j.payload && j'.key == j.key && j'.maxAttempts == j.maxAttempts
    && j'.createdAt == j.createdAt
  }

  /** Every other job stays as it is. */
  predicate OnlyJob(t: Table, u: Table, id: Id) {
    u.Keys == t.Keys && forall x | x in t && x != id :: u[x] == t[x]
  }

  /** A claimed job runs, one attempt on, for its worker, under the token drawn for it, until the lease ends. */
  lemma StartAnswers(t: Table, issued: set<Token>, op: Op, i: nat)
    requires op.Claim? && Allowed(t, issued, op) && i < |op.ids|
    ensures var u, id := Perform(t, issued, op), op.ids[i];
            && id in t && id in u && SameTask(t[id], u[id])
            && u[id].status == Running && u[id].attempts == t[id].attempts + 1
            && u[id].owner == Some(op.worker) && u[id].token == Some(op.tokens[i])
            && u[id].lease == Some(op.now + op.lease) && u[id].startedAt == Some(op.now)
            && u[id].finishedAt.None? && u[id].errorCode.None?
            && u[id].availableAt == t[id].availableAt && u[id].result == t[id].result
            && u.Keys == t.Keys && forall x | x in t && x !in op.ids :: u[x] == t[x]
  {
    ClaimAllMeaning(t, op.ids, op.tokens, op.worker, op.lease, op.now);
    hide ClaimAll, ToClaim, Names.Identifier;
  }

  /** A heartbeat and a completion need the live lease of the caller, and then do just what they say. */
  lemma LeaseholderAnswers(t: Table, issued: set<Token>, op: Op)
    requires (op.Heartbeat? || op.Complete?) && Allowed(t, issued, op)
    ensures var u, id := Perform(t, issued, op), op.id;
            if !OwnedBy(t, id, op.token, op.now) then u == t
            else
              && OnlyJob(t, u, id) && SameTask(t[id], u[id])
              && u[id].attempts == t[id].attempts && u[id].availableAt == t[id].availableAt
              && u[id].startedAt == t[id].startedAt
              && (op.Heartbeat? ==>
                    && u[id].status == Running && u[id].lease == Some(op.expiry) && u[id].token == t[id].token
                    && u[id].owner == t[id].owner && u[id].result == t[id].result && u[id].errorCode == t[id].errorCode)
              && (op.Complete? ==>
                    && u[id].status == Succeeded && LeaseGone(u[id]) && u[id].result == op.result
                    && u[id].finishedAt == Some(op.now) && u[id].errorCode.None?)
  {
  }

  /** A returned job waits out its backoff, or fails once its attempts are used up. */
  lemma RetryAnswers(t: Table, issued: set<Token>, op: Op)
    requires op.Retry? && Allowed(t, issued, op)
    ensures var u, id := Perform(t, issued, op), op.id;
            if !OwnedBy(t, id, op.token, op.now) then u == t
            else
              && OnlyJob(t, u, id) && SameTask(t[id], u[id]) && LeaseGone(u[id])
              && u[id].attempts == t[id].attempts && u[id].errorCode == Some(op.code)
              && u[id].result == t[id].result && u[id].startedAt == t[id].startedAt
              && if t[id].attempts < t[id].maxAttempts then
                   && u[id].status == Retrying && u[id].finishedAt.None?
                   && u[id].availableAt == op.now + Backoff(t[id].attempts) + op.jitter
                 else
                   && u[id].status == Failed && u[id].finishedAt == Some(op.now)
                   && u[id].availableAt == t[id].availableAt
  {
    BackoffIsTheDelay(if op.id in t then t[op.id].attempts else 0);
    hide RetryDelay, Backoff, Names.SnakeCase;
  }

  /** Two, four, eight seconds and so on, five minutes at most. */
  function Backoff(attempts: nat): Time {
    if attempts >= 9 then 300 * SECOND
    else if attempts == 0 then SECOND
    else 2 * Backoff(attempts - 1)
  }

  lemma {:induction false} Pow2Grows(n: nat)
    requires n >= 9
    ensures Pow2(n) >= 512
  {
    if n == 9 {
      assert Pow2(9) == 2 * Pow2(8) && Pow2(8) == 2 * Pow2(7) && Pow2(7) == 2 * Pow2(6) && Pow2(6) == 2 * Pow2(5);
      assert Pow2(5) == 2 * Pow2(4) && Pow2(4) == 2 * Pow2(3) && Pow2(3) == 2 * Pow2(2) && Pow2(2) == 4;
    } else {
      Pow2Grows(n - 1);
    }
  }

  lemma {:induction false} BackoffIsTheDelay(attempts: nat)
    ensures forall jitter :: RetryDelay(attempts, jitter) == Backoff(attempts) + jitter
    ensures attempts < 9 ==> Pow2(attempts) * SECOND == Backoff(attempts) && Pow2(attempts) <= 256
  {
    if attempts >= 9 {
      Pow2Grows(attempts);
    } else if attempts > 0 {
      BackoffIsTheDelay(attempts - 1);
      BackoffStaysSmall(attempts);
    }
  }

  lemma BackoffStaysSmall(attempts: nat)
    requires 0 < attempts < 9
    ensures Pow2(attempts) <= 256
  {
    assert Pow2(8) == 2 * Pow2(7) && Pow2(7) == 2 * Pow2(6) && Pow2(6) == 2 * Pow2(5) && Pow2(5) == 2 * Pow2(4);
    assert Pow2(4) == 2 * Pow2(3) && Pow2(3) == 2 * Pow2(2) && Pow2(2) == 2 * Pow2(1) && Pow2(1) == 2;
  }

  /** Queued work can be withdrawn, anything else cannot. */
  lemma CancelAnswers(t: Table, issued: set<Token>, op: Op)
    requires op.Cancel? && Allowed(t, issued, op)
    ensures var u, id := Perform(t, issued, op), op.id;
            if !(id in t && (t[id].status == Pending || t[id].status == Retrying)) then u == t
            else OnlyJob(t, u, id) && u[id] == t[id].(status := Cancelled, finishedAt := Some(op.now))
  {
  }

  /** A recovered job is available at once, or failed once its attempts are used up. */
  lemma RecoverAnswers(t: Table, issued: set<Token>, op: Op, id: Id)
    requires op.Recover? && Allowed(t, issued, op) && id in t
    ensures var u := Perform(t, issued, op);
            && u.Keys == t.Keys
            && if id !in op.ids then u[id] == t[id]
               else
                 && SameTask(t[id], u[id]) && LeaseGone(u[id])
                 && u[id].attempts == t[id].attempts && u[id].availableAt == op.now
                 && u[id].errorCode == Some("lease_expired") && u[id].result == t[id].result
                 && u[id].startedAt == t[id].startedAt
                 && if t[id].attempts < t[id].maxAttempts then u[id].status == Retrying && u[id].finishedAt.None?
                    else u[id].status == Failed && u[id].finishedAt == Some(op.now)
  {
    hide ToRecover;
  }

  /** A new job is queued with nothing done yet, beside all the others. */
  lemma EnqueueAnswers(t: Table, issued: set<Token>, op: Op)
    requires op.Enqueue? && Allowed(t, issued, op)
    ensures var u := Perform(t, issued, op);
            && u.Keys == t.Keys + {op.id} && (forall x | x in t :: u[x] == t[x])
            && u[op.id].kind == op.kind && u[op.id].payload == op.payload && u[op.id].key == op.key
            && u[op.id].status == Pending && u[op.id].attempts == 0 && u[op.id].maxAttempts == op.maxAttempts
            && u[op.id].availableAt == op.availableAt && u[op.id].createdAt == op.createdAt
            && LeaseGone(u[op.id]) && u[op.id].startedAt.None? && u[op.id].finishedAt.None?
            && u[op.id].result.None? && u[op.id].errorCode.None?
  {
    hide Names.Dotted, Names.Identifier;
  }

  // ---- returned jobs run again -----------------------------------------------------

  /** The step gives the job back to the queue, by its worker's retry or by recovery. */
  predicate GivesBack(t: Table, op: Op, id: Id) {
    && id in t && t[id].attempts < t[id].maxAttempts
    && ((op.Retry? && op.id == id && OwnedBy(t, id, op.token, op.now)) || (op.Recover? && id in op.ids))
  }

  /** From when the job given back is available. */
  function BackAt(t: Table, op: Op, id: Id): Time
    requires GivesBack(t, op, id)
  {
    if op.Retry? then op.now + Backoff(t[id].attempts) + op.jitter else op.now
  }

  /**
   * A job that was returned with an attempt left, or recovered from a lost worker, runs again:
   * if it is still as it was left when a later claim comes, at or after the time it was put
   * off to, that claim starts its next attempt, or is full of jobs before it.
   */
  lemma ReturnedJobRunsAgain(tables: seq<Table>, ops: seq<Op>, issued: seq<set<Token>>, i: nat, j: nat, id: Id)
    requires Run(tables, ops, issued) && i < j < |ops| && GivesBack(tables[i], ops[i], id)
    requires id in tables[i + 1] && id in tables[j] && tables[j][id] == tables[i + 1][id]
    requires ops[j].Claim? && ops[j].now >= BackAt(tables[i], ops[i], id) && id !in ops[j].busy
    ensures id in tables[j + 1]
    ensures || (&& tables[j + 1][id].status == Running
                && tables[j + 1][id].attempts == tables[i][id].attempts + 1)
            || (&& |ops[j].ids| == ops[j].limit
                && forall x | x in ops[j].ids :: x in tables[j] && Before(tables[j], x, id))
  {
    hide Perform, Backoff, Allowed;
    GivenBackIsDue(tables[i], issued[i], ops[i], id, ops[j].now);
    hide GivesBack, BackAt;
    DueIsClaimed(tables[j], issued[j], ops[j], id);
  }

  lemma GivenBackIsDue(t: Table, issued: set<Token>, op: Op, id: Id, now: Time)
    requires Allowed(t, issued, op) && GivesBack(t, op, id) && now >= BackAt(t, op, id)
    ensures var u := Perform(t, issued, op);
            Due(u, id, now) && u[id].attempts == t[id].attempts
  {
    hide Perform, Backoff, Allowed;
    if op.Retry? {
      RetryAnswers(t, issued, op);
    } else {
      RecoverAnswers(t, issued, op, id);
    }
  }

  lemma DueIsClaimed(t: Table, issued: set<Token>, op: Op, id: Id)
    requires op.Claim? && Allowed(t, issued, op) && Due(t, id, op.now) && id !in op.busy
    ensures id in Perform(t, issued, op)
    ensures || (&& Perform(t, issued, op)[id].status == Running
                && Perform(t, issued, op)[id].attempts == t[id].attempts + 1)
            || (|op.ids| == op.limit && forall x | x in op.ids :: x in t && Before(t, x, id))
  {
    assert op.ids == ToClaim(t, op.now, op.busy, op.limit);
    hide Allowed, Perform, ToClaim, Before;
    ClaimAnswers(t, op.now, op.busy, op.limit, id);
    PerformKeys(t, issued, op);
    if id in op.ids {
      var k :| 0 <= k < |op.ids| && op.ids[k] == id;
      StartAnswers(t, issued, op, k);
    }
  }
}
