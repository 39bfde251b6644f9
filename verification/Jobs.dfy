/** The durable background-job lease machine (jobs/service.py). */
module Jobs {
  import opened Basics
  import opened Names
  import Selection

  type Id = nat
  type Token = nat

  datatype Status = Pending | Running | Succeeded | Retrying | Failed | Cancelled

  datatype Job = Job(
    kind: string, payload: string, key: string, status: Status, attempts: nat, maxAttempts: nat, availableAt: Time,
    createdAt: Time, startedAt: Option<Time>, finishedAt: Option<Time>, owner: Option<string>, token: Option<Token>,
    lease: Option<Time>, result: Option<string>, errorCode: Option<string>)

  type Table = map<Id, Job>

  const MAX_LEASE: Time := 86400 * SECOND

  predicate Terminal(status: Status) {
    status == Succeeded || status == Failed || status == Cancelled
  }

  predicate Queued(status: Status) {
    status == Pending || status == Retrying
  }

  // ---- transitions of one job ------------------------------------------------------

  function NewJob(kind: string, payload: string, key: string, maxAttempts: nat, availableAt: Time, createdAt: Time)
    : Job
  {
    Job(kind, payload, key, Pending, 0, maxAttempts, availableAt, createdAt, None, None, None, None, None, None, None)
  }

  predicate Claimable(j: Job, now: Time) {
    Queued(j.status) && j.availableAt <= now && j.attempts < j.maxAttempts
  }

  function Started(j: Job, worker: string, token: Token, lease: Time, now: Time): Job {
    j.(status := Running, attempts := j.attempts + 1, startedAt := Some(now), finishedAt := None,
       owner := Some(worker), token := Some(token), lease := Some(now + lease), errorCode := None)
  }

  /** The caller's token is the job's and its lease has not run out. */
  predicate Live(j: Job, token: Token, now: Time) {
    j.status == Running && j.token == Some(token) && j.lease.Some? && j.lease.value > now
  }

  function Released(j: Job): Job {
    j.(owner := None, token := None, lease := None)
  }

  function Completed(j: Job, result: Option<string>, now: Time): Job {
    Released(j.(status := Succeeded, result := result, finishedAt := Some(now), errorCode := None))
  }

  function RetryDelay(attempts: nat, jitter: Time): Time {
    Min(Pow2(attempts), 300) * SECOND + jitter
  }

  function GivenBack(j: Job, code: string, jitter: Time, now: Time): Job {
    if j.attempts >= j.maxAttempts then
      Released(j.(status := Failed, finishedAt := Some(now), errorCode := Some(code)))
    else
      Released(j.(status := Retrying, availableAt := now + RetryDelay(j.attempts, jitter), finishedAt := None,
                  errorCode := Some(code)))
  }

  function Withdrawn(j: Job, now: Time): Job {
    j.(status := Cancelled, finishedAt := Some(now))
  }

  predicate Abandoned(j: Job, now: Time) {
    j.status == Running && j.lease.Some? && j.lease.value <= now
  }

  function Recovered(j: Job, now: Time): Job {
    var exhausted := j.attempts >= j.maxAttempts;
    Released(j.(status := if exhausted then Failed else Retrying, availableAt := now,
                finishedAt := if exhausted then Some(now) else None, errorCode := Some("lease_expired")))
  }

  // ---- operations on the table -----------------------------------------------------

  /** A bounded batch of distinct rows that satisfy a query. */
  predicate Batch(ids: seq<Id>, eligible: set<Id>, limit: nat) {
    && |ids| <= limit
    && (forall i | 0 <= i < |ids| :: ids[i] in eligible)
    && (forall i, j | 0 <= i < j < |ids| :: ids[i] != ids[j])
  }

  function ClaimableIds(t: Table, now: Time): set<Id> {
    set id | id in t && Claimable(t[id], now)
  }

  function AbandonedIds(t: Table, now: Time): set<Id> {
    set id | id in t && Abandoned(t[id], now)
  }

  /** The order (available_at, created_at, id). */
  function ByAvailability(t: Table): Id -> Selection.Rank {
    id => if id in t then Selection.Rank(t[id].availableAt, t[id].createdAt) else Selection.Rank(0, 0)
  }

  /** The order (lease_expires_at, id). */
  function ByLease(t: Table): Id -> Selection.Rank {
    id => if id in t then Selection.Rank(t[id].lease.GetOr(0), 0) else Selection.Rank(0, 0)
  }

  /** The jobs a claim takes: the longest available first, passing over those in busy. */
  function ToClaim(t: Table, now: Time, busy: set<Id>, limit: nat): (ids: seq<Id>)
    ensures Batch(ids, ClaimableIds(t, now), limit)
  {
    var ids := Selection.Select(ClaimableIds(t, now) - busy, ByAvailability(t), limit);
    assert forall i | 0 <= i < |ids| :: ids[i] in ids;
    ids
  }

  /** The jobs a recovery takes: the longest expired first. */
  function ToRecover(t: Table, now: Time, busy: set<Id>, limit: nat): (ids: seq<Id>)
    ensures Batch(ids, AbandonedIds(t, now), limit)
  {
    var ids := Selection.Select(AbandonedIds(t, now) - busy, ByLease(t), limit);
    assert forall i | 0 <= i < |ids| :: ids[i] in ids;
    ids
  }

  /** a stands before b in the order of a claim. */
  predicate Earlier(t: Table, a: Id, b: Id)
    requires a in t && b in t
  {
    var p, q := t[a], t[b];
    || p.availableAt < q.availableAt
    || (p.availableAt == q.availableAt && (p.createdAt < q.createdAt || (p.createdAt == q.createdAt && a <= b)))
  }

  /**
   * A claim is in order, and a claimable job that no other transaction holds is left out only
   * by a full claim of jobs that stand before it.
   */
  lemma ClaimTakesTheEarliest(t: Table, now: Time, busy: set<Id>, limit: nat, i: nat, id: Id)
    requires i < |ToClaim(t, now, busy, limit)|
    ensures var ids := ToClaim(t, now, busy, limit);
            && ids[i] in t
            && (forall j | i < j < |ids| :: ids[j] in t && Earlier(t, ids[i], ids[j]))
            && (id in ClaimableIds(t, now) - busy && id !in ids ==> |ids| == limit && Earlier(t, ids[i], id))
  {
    var ids := ToClaim(t, now, busy, limit);
    assert ids[i] in ids;
    forall j | i < j < |ids| ensures ids[j] in t && Earlier(t, ids[i], ids[j]) {
      assert ids[j] in ids && Selection.Precedes(ByAvailability(t), ids[i], ids[j]);
    }
    if id in ClaimableIds(t, now) - busy && id !in ids {
      assert Selection.Precedes(ByAvailability(t), ids[i], id);
    }
  }

  /** The same for recovery, in the order of the expired leases. */
  lemma RecoveryTakesTheEarliest(t: Table, now: Time, busy: set<Id>, limit: nat, i: nat, id: Id)
    requires i < |ToRecover(t, now, busy, limit)|
    ensures var ids := ToRecover(t, now, busy, limit);
            && ids[i] in AbandonedIds(t, now)
            && (forall j | i < j < |ids| :: ids[j] in AbandonedIds(t, now) && ExpiredEarlier(t, now, ids[i], ids[j]))
            && (id in AbandonedIds(t, now) - busy && id !in ids ==>
                  |ids| == limit && ExpiredEarlier(t, now, ids[i], id))
  {
    var ids := ToRecover(t, now, busy, limit);
    assert ids[i] in ids;
    forall j | i < j < |ids| ensures ids[j] in AbandonedIds(t, now) && ExpiredEarlier(t, now, ids[i], ids[j]) {
      assert ids[j] in ids && Selection.Precedes(ByLease(t), ids[i], ids[j]);
    }
    if id in AbandonedIds(t, now) - busy && id !in ids {
      assert Selection.Precedes(ByLease(t), ids[i], id);
    }
  }

  predicate ExpiredEarlier(t: Table, now: Time, a: Id, b: Id)
    requires a in AbandonedIds(t, now) && b in AbandonedIds(t, now)
  {
    t[a].lease.value < t[b].lease.value || (t[a].lease.value == t[b].lease.value && a <= b)
  }

  /** Fresh tokens, one for each claimed row. */
  predicate Fresh(tokens: seq<Token>, issued: set<Token>) {
    && (forall i | 0 <= i < |tokens| :: tokens[i] !in issued)
    && (forall i, j | 0 <= i < j < |tokens| :: tokens[i] != tokens[j])
  }

  function ClaimAll(t: Table, ids: seq<Id>, tokens: seq<Token>, worker: string, lease: Time, now: Time): Table
    requires |tokens| == |ids|
    requires forall i | 0 <= i < |ids| :: ids[i] in t
  {
    if ids == [] then t
    else
      var n := |ids| - 1;
      var u := ClaimAll(t, ids[..n], tokens[..n], worker, lease, now);
      if ids[n] in u then u[ids[n] := Started(u[ids[n]], worker, tokens[n], lease, now)] else u
  }

  function RecoverAll(t: Table, ids: seq<Id>, now: Time): Table {
    map id | id in t :: if id in ids then Recovered(t[id], now) else t[id]
  }

  datatype Op =
    | Enqueue(id: Id, kind: string, payload: string, key: string, maxAttempts: nat, availableAt: Time, createdAt: Time)
    | Claim(ids: seq<Id>, busy: set<Id>, tokens: seq<Token>, worker: string, lease: Time, limit: nat, now: Time)
    | Heartbeat(id: Id, token: Token, expiry: Time, now: Time)
    | Complete(id: Id, token: Token, result: Option<string>, now: Time)
    | Retry(id: Id, token: Token, code: string, jitter: Time, now: Time)
    | Cancel(id: Id, now: Time)
    | Recover(ids: seq<Id>, busy: set<Id>, limit: nat, now: Time)

  /** The arguments the service accepts, and query results PostgreSQL may return. */
  predicate Allowed(t: Table, issued: set<Token>, op: Op) {
    match op
    case Enqueue(id, kind, _, key, maxAttempts, _, _) =>
      && id !in t && |kind| <= 100 && Dotted(kind) && Identifier(key, 255) && 1 <= maxAttempts <= 100
      && forall x | x in t :: t[x].key != key
    case Claim(ids, busy, tokens, worker, lease, limit, now) =>
      && Identifier(worker, 100) && 0 < lease <= MAX_LEASE && 1 <= limit <= 100
      && ids == ToClaim(t, now, busy, limit)
      && |tokens| == |ids| && Fresh(tokens, issued)
    case Heartbeat(_, _, expiry, now) => expiry > now
    case Complete(_, _, _, _) => true
    case Retry(_, _, code, jitter, _) => SnakeCase(code) && |code| <= 100 && 0 <= jitter <= 30 * SECOND
    case Cancel(_, _) => true
    case Recover(ids, busy, limit, now) => 1 <= limit <= 100 && ids == ToRecover(t, now, busy, limit)
  }

  function Perform(t: Table, issued: set<Token>, op: Op): Table
    requires Allowed(t, issued, op)
  {
    match op
    case Enqueue(id, kind, payload, key, maxAttempts, availableAt, createdAt) =>
      t[id := NewJob(kind, payload, key, maxAttempts, availableAt, createdAt)]
    case Claim(ids, _, tokens, worker, lease, _, now) => ClaimAll(t, ids, tokens, worker, lease, now)
    case Heartbeat(id, token, expiry, now) =>
      if id in t && Live(t[id], token, now) then t[id := t[id].(lease := Some(expiry))] else t
    case Complete(id, token, result, now) =>
      if id in t && Live(t[id], token, now) then t[id := Completed(t[id], result, now)] else t
    case Retry(id, token, code, jitter, now) =>
      if id in t && Live(t[id], token, now) then t[id := GivenBack(t[id], code, jitter, now)] else t
    case Cancel(id, now) => if id in t && Queued(t[id].status) then t[id := Withdrawn(t[id], now)] else t
    case Recover(ids, _, _, now) => RecoverAll(t, ids, now)
  }

  function IssuedBy(op: Op): set<Token> {
    if op.Claim? then set i | 0 <= i < |op.tokens| :: op.tokens[i] else {}
  }

  // ---- invariant -------------------------------------------------------------------

  predicate JobOk(j: Job) {
    && 1 <= j.maxAttempts <= 100
    && j.attempts <= j.maxAttempts
    && (j.status == Running <==> j.owner.Some? && j.token.Some? && j.lease.Some?)
    && (j.status != Running ==> j.owner.None? && j.token.None? && j.lease.None?)
    && (j.finishedAt.Some? <==> Terminal(j.status))
    && (Queued(j.status) ==> j.attempts < j.maxAttempts)
    && (j.status == Failed ==> j.attempts == j.maxAttempts)
    && (j.status == Running ==> j.attempts >= 1)
  }

  ghost predicate TableOk(t: Table, issued: set<Token>) {
    && (forall id | id in t :: JobOk(t[id]))
    && (forall id | id in t && t[id].token.Some? :: t[id].token.value in issued)
    && (forall x, y | x in t && y in t && x != y && t[x].token.Some? :: t[x].token != t[y].token)
    && (forall x, y | x in t && y in t && x != y :: t[x].key != t[y].key)
  }

  /** What one operation may do to one job. */
  predicate Moves(j: Job, j': Job, issued: set<Token>) {
    && (Terminal(j.status) ==> j' == j)
    && j'.key == j.key && j'.maxAttempts == j.maxAttempts && j'.kind == j.kind && j'.payload == j.payload
    && j.attempts <= j'.attempts <= j.attempts + 1
    && (j'.token.Some? ==> j'.token == j.token || (j'.token.value !in issued && j'.attempts == j.attempts + 1))
    && (j'.token == j.token ==> j'.attempts == j.attempts)
  }

  lemma {:induction false} ClaimAllMeaning(t: Table, ids: seq<Id>, tokens: seq<Token>, worker: string, lease: Time,
                                           now: Time)
    requires |tokens| == |ids|
    requires forall i | 0 <= i < |ids| :: ids[i] in t
    requires forall i, j | 0 <= i < j < |ids| :: ids[i] != ids[j]
    ensures var u := ClaimAll(t, ids, tokens, worker, lease, now);
            && u.Keys == t.Keys
            && (forall i | 0 <= i < |ids| :: u[ids[i]] == Started(t[ids[i]], worker, tokens[i], lease, now))
            && (forall id | id in t && id !in ids :: u[id] == t[id])
  {
    hide Started;
    if ids != [] {
      var n := |ids| - 1;
      ClaimAllMeaning(t, ids[..n], tokens[..n], worker, lease, now);
      assert forall i | 0 <= i < n :: ids[..n][i] == ids[i];
      assert ids[n] !in ids[..n];
      assert forall id | id !in ids :: id !in ids[..n];
    }
  }

  lemma StartedMoves(j: Job, worker: string, token: Token, lease: Time, now: Time, issued: set<Token>)
    requires JobOk(j) && Claimable(j, now) && token !in issued
    ensures var j' := Started(j, worker, token, lease, now);
            JobOk(j') && Moves(j, j', issued) && j'.token == Some(token)
  {
  }

  /** A claimed job carries the token of its place in the batch. */
  lemma ClaimMoves(t: Table, issued: set<Token>, op: Op, id: Id)
    requires TableOk(t, issued) && op.Claim? && Allowed(t, issued, op) && id in t
    ensures var u := Perform(t, issued, op);
            && id in u && JobOk(u[id]) && Moves(t[id], u[id], issued)
            && (u[id] == t[id]
                || exists i :: 0 <= i < |op.tokens| && op.ids[i] == id && u[id].token == Some(op.tokens[i]))
  {
    ClaimAllMeaning(t, op.ids, op.tokens, op.worker, op.lease, op.now);
    assert JobOk(t[id]);
    if id in op.ids {
      var i :| 0 <= i < |op.ids| && op.ids[i] == id;
      assert op.tokens[i] !in issued && id in ClaimableIds(t, op.now);
      hide TableOk, ClaimAll;
      StartedMoves(t[id], op.worker, op.tokens[i], op.lease, op.now, issued);
      hide JobOk, Moves, Started;
    } else {
      hide TableOk, ClaimAll;
    }
  }

  /** Every transition that presents a live token, withdraws queued work or recovers an abandoned job. */
  lemma TransitionsMove(j: Job, issued: set<Token>, result: Option<string>, code: string, jitter: Time, now: Time,
                        expiry: Time)
    requires JobOk(j)
    ensures JobOk(j) && Moves(j, j, issued)
    ensures j.status == Running ==> Keeps(j, j.(lease := Some(expiry)), issued)
    ensures j.status == Running ==> Keeps(j, Completed(j, result, now), issued)
    ensures j.status == Running ==> Keeps(j, GivenBack(j, code, jitter, now), issued)
    ensures j.status == Running ==> Keeps(j, Recovered(j, now), issued)
    ensures Queued(j.status) ==> Keeps(j, Withdrawn(j, now), issued)
  {
    hide RetryDelay;
  }

  predicate Keeps(j: Job, j': Job, issued: set<Token>) {
    JobOk(j') && Moves(j, j', issued) && (j'.token.Some? ==> j'.token == j.token)
  }

  lemma OtherMoves(t: Table, issued: set<Token>, op: Op, id: Id)
    requires TableOk(t, issued) && !op.Claim? && Allowed(t, issued, op) && id in t
    ensures var u := Perform(t, issued, op);
            && id in u && JobOk(u[id]) && Moves(t[id], u[id], issued)
            && (u[id].token.Some? ==> u[id].token == t[id].token)
  {
    assert JobOk(t[id]);
    hide TableOk, JobOk, Moves, Completed, GivenBack, Recovered, Withdrawn, ClaimAll, Identifier;
    match op
    case Enqueue(_, _, _, _, _, _, _) => TransitionsMove(t[id], issued, None, "", 0, 0, 0);
    case Heartbeat(_, _, expiry, _) => TransitionsMove(t[id], issued, None, "", 0, 0, expiry);
    case Complete(_, _, result, now) => TransitionsMove(t[id], issued, result, "", 0, now, 0);
    case Retry(_, _, code, jitter, now) => TransitionsMove(t[id], issued, None, code, jitter, now, 0);
    case Cancel(_, now) => TransitionsMove(t[id], issued, None, "", 0, now, 0);
    case Recover(_, _, _, now) =>
      TransitionsMove(t[id], issued, None, "", 0, now, 0);
      RecoveredAreAbandoned(t, issued, op, id);
  }

  lemma RecoveredAreAbandoned(t: Table, issued: set<Token>, op: Op, id: Id)
    requires op.Recover? && Allowed(t, issued, op) && id in t
    ensures id in op.ids ==> id in AbandonedIds(t, op.now) && Abandoned(t[id], op.now)
  {
  }

  lemma JobMoves(t: Table, issued: set<Token>, op: Op, id: Id)
    requires TableOk(t, issued) && Allowed(t, issued, op) && id in t
    ensures var u := Perform(t, issued, op);
            id in u && JobOk(u[id]) && Moves(t[id], u[id], issued)
  {
    hide Perform, TableOk, Moves, JobOk;
    if op.Claim? {
      ClaimMoves(t, issued, op, id);
    } else {
      OtherMoves(t, issued, op, id);
    }
  }

  lemma PerformKeys(t: Table, issued: set<Token>, op: Op)
    requires Allowed(t, issued, op)
    ensures Perform(t, issued, op).Keys == if op.Enqueue? then t.Keys + {op.id} else t.Keys
    ensures op.Enqueue? ==> Perform(t, issued, op)[op.id]
                            == NewJob(op.kind, op.payload, op.key, op.maxAttempts, op.availableAt, op.createdAt)
  {
    if op.Claim? {
      ClaimAllMeaning(t, op.ids, op.tokens, op.worker, op.lease, op.now);
    }
  }

  /** Two claimed rows carry different draws, and a claimed row none of the older tokens. */
  lemma ClaimedTokensDiffer(t: Table, issued: set<Token>, op: Op, x: Id, y: Id)
    requires TableOk(t, issued) && op.Claim? && Allowed(t, issued, op)
    requires x in t && y in t && x != y
    ensures var u := Perform(t, issued, op);
            x in u && y in u && (u[x].token.Some? ==> u[x].token != u[y].token)
  {
    assert t[x].token.Some? ==> t[x].token.value in issued;
    assert t[y].token.Some? ==> t[y].token.value in issued;
    assert t[x].token.Some? ==> t[x].token != t[y].token;
    assert Fresh(op.tokens, issued) && |op.tokens| == |op.ids|;
    hide Perform, JobOk, Moves, TableOk, Allowed, Fresh;
    ClaimMoves(t, issued, op, x);
    ClaimMoves(t, issued, op, y);
    var u := Perform(t, issued, op);
    if u[x] != t[x] {
      var i :| 0 <= i < |op.tokens| && op.ids[i] == x && u[x].token == Some(op.tokens[i]);
      FreshToken(op.tokens, issued, i);
      if u[y] != t[y] {
        var j :| 0 <= j < |op.tokens| && op.ids[j] == y && u[y].token == Some(op.tokens[j]);
        FreshTokens(op.tokens, issued, i, j);
      }
    } else if u[y] != t[y] {
      var j :| 0 <= j < |op.tokens| && op.ids[j] == y && u[y].token == Some(op.tokens[j]);
      FreshToken(op.tokens, issued, j);
    }
  }

  lemma FreshToken(tokens: seq<Token>, issued: set<Token>, i: nat)
    requires Fresh(tokens, issued) && i < |tokens|
    ensures tokens[i] !in issued
  {
  }

  lemma FreshTokens(tokens: seq<Token>, issued: set<Token>, i: nat, j: nat)
    requires Fresh(tokens, issued) && i < |tokens| && j < |tokens| && i != j
    ensures tokens[i] != tokens[j]
  {
  }

  lemma TokensStayDistinct(t: Table, issued: set<Token>, op: Op, x: Id, y: Id)
    requires TableOk(t, issued) && Allowed(t, issued, op)
    requires x in t && y in t && x != y
    ensures var u := Perform(t, issued, op);
            x in u && y in u && (u[x].token.Some? ==> u[x].token != u[y].token)
  {
    assert t[x].token.Some? ==> t[x].token != t[y].token;
    hide Perform, JobOk, Moves, TableOk, Allowed;
    if op.Claim? {
      ClaimedTokensDiffer(t, issued, op, x, y);
    } else {
      OtherMoves(t, issued, op, x);
      OtherMoves(t, issued, op, y);
    }
  }

  lemma TokenIsIssued(t: Table, issued: set<Token>, op: Op, x: Id)
    requires TableOk(t, issued) && Allowed(t, issued, op) && x in t
    ensures var u := Perform(t, issued, op);
            x in u && (u[x].token.Some? ==> u[x].token.value in issued + IssuedBy(op))
  {
    if op.Claim? {
      ClaimMoves(t, issued, op, x);
    } else {
      OtherMoves(t, issued, op, x);
    }
    hide Perform, JobOk, Moves;
  }

  predicate RowFacts(j: Job, issued: set<Token>) {
    JobOk(j) && (j.token.Some? ==> j.token.value in issued)
  }

  predicate Apart(j: Job, k: Job) {
    j.key != k.key && (j.token.Some? ==> j.token != k.token)
  }

  lemma TableOkFrom(t: Table, issued: set<Token>)
    requires forall id | id in t :: RowFacts(t[id], issued)
    requires forall x, y | x in t && y in t && x != y :: Apart(t[x], t[y])
    ensures TableOk(t, issued)
  {
    hide JobOk;
    assert forall id | id in t :: RowFacts(t[id], issued);
  }

  lemma RowStep(t: Table, issued: set<Token>, op: Op, id: Id)
    requires TableOk(t, issued) && Allowed(t, issued, op) && id in Perform(t, issued, op)
    ensures RowFacts(Perform(t, issued, op)[id], issued + IssuedBy(op))
  {
    PerformKeys(t, issued, op);
    hide Perform, IssuedBy, Moves, JobOk, Allowed, TableOk;
    if id in t {
      JobMoves(t, issued, op, id);
      TokenIsIssued(t, issued, op, id);
    } else {
      NewJobOk(op.kind, op.payload, op.key, op.maxAttempts, op.availableAt, op.createdAt);
    }
  }

  /** Every operation preserves the invariant. */
  lemma TableOkStep(t: Table, issued: set<Token>, op: Op)
    requires TableOk(t, issued) && Allowed(t, issued, op)
    ensures TableOk(Perform(t, issued, op), issued + IssuedBy(op))
  {
    var u := Perform(t, issued, op);
    hide *;
    forall id | id in u ensures RowFacts(u[id], issued + IssuedBy(op)) {
      RowStep(t, issued, op, id);
    }
    forall x, y | x in u && y in u && x != y ensures Apart(u[x], u[y]) {
      PairStep(t, issued, op, x, y);
    }
    TableOkFrom(u, issued + IssuedBy(op));
  }

  lemma NewJobOk(kind: string, payload: string, key: string, maxAttempts: nat, availableAt: Time, createdAt: Time)
    requires 1 <= maxAttempts <= 100
    ensures JobOk(NewJob(kind, payload, key, maxAttempts, availableAt, createdAt))
    ensures NewJob(kind, payload, key, maxAttempts, availableAt, createdAt).token.None?
  {
  }

  lemma PairStep(t: Table, issued: set<Token>, op: Op, x: Id, y: Id)
    requires TableOk(t, issued) && Allowed(t, issued, op)
    requires var u := Perform(t, issued, op); x in u && y in u && x != y
    ensures Apart(Perform(t, issued, op)[x], Perform(t, issued, op)[y])
  {
    PerformKeys(t, issued, op);
    hide Perform, JobOk;
    if x in t && y in t {
      JobMoves(t, issued, op, x);
      JobMoves(t, issued, op, y);
      TokensStayDistinct(t, issued, op, x, y);
    } else if x in t {
      JobMoves(t, issued, op, x);
    } else {
      JobMoves(t, issued, op, y);
    }
  }

  // ---- runs ------------------------------------------------------------------------

  ghost predicate Run(tables: seq<Table>, ops: seq<Op>, issued: seq<set<Token>>) {
    && |tables| == |ops| + 1 == |issued|
    && tables[0] == map[] && issued[0] == {}
    && forall i | 0 <= i < |ops| ::
         && Allowed(tables[i], issued[i], ops[i])
         && tables[i + 1] == Perform(tables[i], issued[i], ops[i])
         && issued[i + 1] == issued[i] + IssuedBy(ops[i])
  }

  /** In every reachable table the lease fields, finish times and attempt counts fit the status. */
  lemma {:induction false} RunTableOk(tables: seq<Table>, ops: seq<Op>, issued: seq<set<Token>>, i: nat)
    requires Run(tables, ops, issued) && i < |tables|
    ensures TableOk(tables[i], issued[i])
  {
    hide Perform, Allowed, IssuedBy;
    if i > 0 {
      hide TableOk;
      RunTableOk(tables, ops, issued, i - 1);
      TableOkStep(tables[i - 1], issued[i - 1], ops[i - 1]);
    }
  }

  lemma {:induction false} JobsPersist(tables: seq<Table>, ops: seq<Op>, issued: seq<set<Token>>, i: nat, j: nat,
                                       id: Id)
    requires Run(tables, ops, issued) && i <= j < |tables| && id in tables[i]
    ensures id in tables[j] && tables[i][id].attempts <= tables[j][id].attempts <= tables[j][id].maxAttempts
    ensures tables[j][id].maxAttempts == tables[i][id].maxAttempts
    ensures Terminal(tables[i][id].status) ==> tables[j][id] == tables[i][id]
  {
    hide Perform, Allowed, IssuedBy;
    RunTableOk(tables, ops, issued, j);
    assert id in tables[j] ==> JobOk(tables[j][id]);
    if i < j {
      JobsPersist(tables, ops, issued, i, j - 1, id);
      RunTableOk(tables, ops, issued, j - 1);
      hide TableOk;
      JobMoves(tables[j - 1], issued[j - 1], ops[j - 1], id);
    }
  }

  predicate HeldBy(t: Table, id: Id, token: Token) {
    id in t && t[id].token == Some(token)
  }

  lemma LostStays(t: Table, issued: set<Token>, op: Op, id: Id, token: Token)
    requires TableOk(t, issued) && Allowed(t, issued, op) && token in issued && !HeldBy(t, id, token)
    ensures !HeldBy(Perform(t, issued, op), id, token)
  {
    PerformKeys(t, issued, op);
    if id in t {
      JobMoves(t, issued, op, id);
    }
    hide Perform, Allowed;
  }

  /** A token that lost its job, to recovery or to its own last call, never holds it again. */
  lemma {:induction false} LostForGood(tables: seq<Table>, ops: seq<Op>, issued: seq<set<Token>>, i: nat, j: nat,
                                       id: Id, token: Token)
    requires Run(tables, ops, issued) && i <= j < |tables|
    requires token in issued[i] && !HeldBy(tables[i], id, token)
    ensures token in issued[j] && !HeldBy(tables[j], id, token)
  {
    hide Perform, Allowed, IssuedBy, HeldBy, TableOk;
    if i < j {
      LostForGood(tables, ops, issued, i, j - 1, id, token);
      RunTableOk(tables, ops, issued, j - 1);
      LostStays(tables[j - 1], issued[j - 1], ops[j - 1], id, token);
    }
  }

  predicate Presents(op: Op, id: Id, token: Token) {
    (op.Heartbeat? || op.Complete? || op.Retry?) && op.id == id && op.token == token
  }

  lemma UnheldChangesNothing(t: Table, issued: set<Token>, op: Op, id: Id, token: Token)
    requires Allowed(t, issued, op) && Presents(op, id, token) && !HeldBy(t, id, token)
    ensures Perform(t, issued, op) == t
  {
  }

  lemma ClosingLosesToken(t: Table, issued: set<Token>, op: Op, id: Id, token: Token)
    requires TableOk(t, issued) && Allowed(t, issued, op) && id in t && HeldBy(t, id, token)
    requires || (op.Recover? && id in op.ids)
             || ((op.Complete? || op.Retry?) && op.id == id && Live(t[id], op.token, op.now))
    ensures token in issued && !HeldBy(Perform(t, issued, op), id, token)
  {
    assert t[id].token.value in issued;
  }

  /**
   * A worker whose lease was recovered, or who already completed or returned the job, can
   * never complete, retry or prolong it again, whatever clock it reads.
   */
  lemma RecoveredWorkerIsPowerless(tables: seq<Table>, ops: seq<Op>, issued: seq<set<Token>>, i: nat, j: nat, id: Id,
                                   token: Token)
    requires Run(tables, ops, issued) && i < j < |ops|
    requires id in tables[i] && HeldBy(tables[i], id, token)
    requires || (ops[i].Recover? && id in ops[i].ids)
             || (&& (ops[i].Complete? || ops[i].Retry?) && ops[i].id == id
                 && Live(tables[i][id], ops[i].token, ops[i].now))
    requires Presents(ops[j], id, token)
    ensures tables[j + 1] == tables[j]
  {
    hide Perform, Allowed, IssuedBy, HeldBy, TableOk;
    RunTableOk(tables, ops, issued, i);
    ClosingLosesToken(tables[i], issued[i], ops[i], id, token);
    assert token in issued[i + 1];
    LostForGood(tables, ops, issued, i + 1, j, id, token);
    UnheldChangesNothing(tables[j], issued[j], ops[j], id, token);
  }

  lemma ClaimAllStep(t: Table, ids: seq<Id>, tokens: seq<Token>, i: nat, worker: string, lease: Time, now: Time)
    requires i < |ids| == |tokens|
    requires forall k | 0 <= k < |ids| :: ids[k] in t
    requires forall j, k | 0 <= j < k < |ids| :: ids[j] != ids[k]
    ensures var u := ClaimAll(t, ids[..i], tokens[..i], worker, lease, now);
            && ids[i] in u && u[ids[i]] == t[ids[i]]
            && u[ids[i] := Started(t[ids[i]], worker, tokens[i], lease, now)]
               == ClaimAll(t, ids[..i + 1], tokens[..i + 1], worker, lease, now)
  {
    ClaimAllMeaning(t, ids[..i], tokens[..i], worker, lease, now);
    assert ids[..i + 1][..i] == ids[..i] && tokens[..i + 1][..i] == tokens[..i];
  }

  lemma RecoverAllStep(t: Table, ids: seq<Id>, i: nat, now: Time)
    requires i < |ids| && ids[i] in t
    requires forall j, k | 0 <= j < k < |ids| :: ids[j] != ids[k]
    ensures var u := RecoverAll(t, ids[..i], now);
            && ids[i] in u && u[ids[i]] == t[ids[i]]
            && u[ids[i] := Recovered(t[ids[i]], now)] == RecoverAll(t, ids[..i + 1], now)
  {
    assert ids[..i + 1] == ids[..i] + [ids[i]];
  }

  // ---- the service -----------------------------------------------------------------

  datatype Error = ValueError | IntegrityError

  /**
   * The table behind one session.  Query results, clock readings and fresh tokens are
   * parameters; issued records every token handed out.
   */
  class JobService {
    var jobs: Table
    ghost var issued: set<Token>

    constructor ()
      ensures jobs == map[] && issued == {}
    {
      jobs, issued := map[], {};
    }

    ghost predicate Valid()
      reads this
    {
      TableOk(jobs, issued)
    }

    method EnqueueJob(id: Id, kind: string, payload: string, key: string, maxAttempts: int, availableAt: Time,
                      createdAt: Time)
      returns (r: Result<Id, Error>)
      requires Valid() && id !in jobs
      modifies this
      ensures Valid() && issued == old(issued)
      ensures r.Err? ==> jobs == old(jobs)
      ensures r == if !(|kind| <= 100 && Dotted(kind) && Identifier(key, 255) && 1 <= maxAttempts <= 100)
                   then Err(ValueError)
                   else if exists x :: x in old(jobs) && old(jobs)[x].key == key then Err(IntegrityError)
                   else Ok(id)
      ensures r.Ok? ==>
                var op := Enqueue(id, kind, payload, key, maxAttempts, availableAt, createdAt);
                Allowed(old(jobs), issued, op) && jobs == Perform(old(jobs), issued, op)
    {
      if |kind| > 100 || !Dotted(kind) || !Identifier(key, 255) || !(1 <= maxAttempts <= 100) {
        return Err(ValueError);
      }
      if exists x :: x in jobs && jobs[x].key == key {
        return Err(IntegrityError);
      }
      ghost var op := Enqueue(id, kind, payload, key, maxAttempts, availableAt, createdAt);
      TableOkStep(jobs, issued, op);
      jobs := jobs[id := NewJob(kind, payload, key, maxAttempts, availableAt, createdAt)];
      return Ok(id);
    }

    /** busy holds the rows SKIP LOCKED passes over; tokens are the uuid4() draws. */
    method ClaimJobs(worker: string, lease: Time, limit: int, now: Time, busy: set<Id>, draws: seq<Token>)
      returns (r: Result<seq<Id>, Error>)
      requires Valid() && Fresh(draws, issued) && |draws| >= limit
      modifies this
      ensures Valid()
      ensures r.Ok? <==> Identifier(worker, 100) && 0 < lease <= 86_400 * SECOND && 1 <= limit <= 100
      ensures r.Err? ==> r == Err(ValueError) && jobs == old(jobs) && issued == old(issued)
      ensures r.Ok? ==>
                && r.value == ToClaim(old(jobs), now, busy, limit)
                && var op := Claim(r.value, busy, draws[..|r.value|], worker, lease, limit, now);
                && Allowed(old(jobs), old(issued), op)
                && jobs == Perform(old(jobs), old(issued), op)
                && issued == old(issued) + IssuedBy(op)
    {
      if !Identifier(worker, 100) || lease <= 0 || lease > MAX_LEASE || limit < 1 || limit > 100 {
        return Err(ValueError);
      }
      var ids := ToClaim(jobs, now, busy, limit);
      hide ToClaim, Perform, Allowed, IssuedBy, TableOk, Fresh, Batch, ClaimableIds, Identifier;
      var tokens := draws[..|ids|];
      ClaimIsAllowed(jobs, issued, busy, draws, worker, lease, limit, now);
      ghost var op := Claim(ids, busy, tokens, worker, lease, limit, now);
      TableOkStep(jobs, issued, op);
      StartAll(ids, tokens, limit, worker, lease, now);
      issued := issued + IssuedBy(op);
      return Ok(ids);
    }

    method StartAll(ids: seq<Id>, tokens: seq<Token>, limit: nat, worker: string, lease: Time, now: Time)
      requires |tokens| == |ids| && Batch(ids, jobs.Keys, limit)
      modifies `jobs
      ensures jobs == ClaimAll(old(jobs), ids, tokens, worker, lease, now)
    {
      ghost var before := jobs;
      for i := 0 to |ids|
        invariant jobs == ClaimAll(before, ids[..i], tokens[..i], worker, lease, now)
      {
        ClaimAllStep(before, ids, tokens, i, worker, lease, now);
        var job := jobs[ids[i]];
        job := job.(status := Running, attempts := job.attempts + 1);
        job := job.(startedAt := Some(now), finishedAt := None);
        job := job.(owner := Some(worker), token := Some(tokens[i]), lease := Some(now + lease), errorCode := None);
        assert job == Started(before[ids[i]], worker, tokens[i], lease, now);
        jobs := jobs[ids[i] := job];
      }
      assert ids[..|ids|] == ids && tokens[..|tokens|] == tokens;
    }

    method HeartbeatJob(id: Id, token: Token, expiry: Time, now: Time) returns (r: Result<bool, Error>)
      requires Valid()
      modifies this
      ensures Valid() && issued == old(issued)
      ensures r == if expiry <= now then Err(ValueError) else Ok(id in old(jobs) && Live(old(jobs)[id], token, now))
      ensures jobs == if r.Ok? then Perform(old(jobs), issued, Heartbeat(id, token, expiry, now)) else old(jobs)
    {
      if expiry <= now {
        return Err(ValueError);
      }
      TableOkStep(jobs, issued, Heartbeat(id, token, expiry, now));
      if id in jobs && Live(jobs[id], token, now) {
        jobs := jobs[id := jobs[id].(lease := Some(expiry))];
        return Ok(true);
      }
      return Ok(false);
    }

    method CompleteJob(id: Id, token: Token, result: Option<string>, now: Time) returns (done: bool)
      requires Valid()
      modifies this
      ensures Valid() && issued == old(issued)
      ensures done <==> id in old(jobs) && Live(old(jobs)[id], token, now)
      ensures jobs == Perform(old(jobs), issued, Complete(id, token, result, now))
    {
      TableOkStep(jobs, issued, Complete(id, token, result, now));
      if id in jobs && Live(jobs[id], token, now) {
        jobs := jobs[id := jobs[id].(status := Succeeded, result := result, finishedAt := Some(now), owner := None,
                                     token := None, lease := None, errorCode := None)];
        return true;
      }
      return false;
    }

    method RetryJob(id: Id, token: Token, code: string, jitter: Time, now: Time) returns (r: Result<bool, Error>)
      requires Valid()
      modifies this
      ensures Valid() && issued == old(issued)
      ensures r == if SnakeCase(code) && |code| <= 100 && 0 <= jitter <= 30 * SECOND
                   then Ok(id in old(jobs) && Live(old(jobs)[id], token, now)) else Err(ValueError)
      ensures jobs == if r.Ok? then Perform(old(jobs), issued, Retry(id, token, code, jitter, now)) else old(jobs)
    {
      if !SnakeCase(code) || |code| > 100 || jitter < 0 || jitter > 30 * SECOND {
        return Err(ValueError);
      }
      TableOkStep(jobs, issued, Retry(id, token, code, jitter, now));
      hide TableOk, RetryDelay;
      if id !in jobs || jobs[id].status != Running || jobs[id].token != Some(token) || jobs[id].lease.None?
         || jobs[id].lease.value <= now {
        return Ok(false);
      }
      var job := jobs[id];
      var exhausted := job.attempts >= job.maxAttempts;
      job := job.(status := if exhausted then Failed else Retrying);
      if exhausted {
        job := job.(finishedAt := Some(now));
      } else {
        job := job.(availableAt := now + RetryDelay(job.attempts, jitter), finishedAt := None);
      }
      job := job.(errorCode := Some(code), owner := None, token := None, lease := None);
      assert job == GivenBack(jobs[id], code, jitter, now);
      jobs := jobs[id := job];
      return Ok(true);
    }

    method CancelJob(id: Id, now: Time) returns (cancelled: bool)
      requires Valid()
      modifies this
      ensures Valid() && issued == old(issued)
      ensures cancelled <==> id in old(jobs) && Queued(old(jobs)[id].status)
      ensures jobs == Perform(old(jobs), issued, Cancel(id, now))
    {
      TableOkStep(jobs, issued, Cancel(id, now));
      if id in jobs && Queued(jobs[id].status) {
        jobs := jobs[id := jobs[id].(status := Cancelled, finishedAt := Some(now))];
        return true;
      }
      return false;
    }

    static method RecoverJob(expired: Job, now: Time) returns (job: Job)
      ensures job == Recovered(expired, now)
    {
      job := expired;
      var exhausted := job.attempts >= job.maxAttempts;
      job := job.(status := if exhausted then Failed else Retrying, availableAt := now);
      job := job.(finishedAt := if exhausted then Some(now) else None, errorCode := Some("lease_expired"));
      job := job.(owner := None, token := None, lease := None);
    }

    method RecoverExpired(limit: int, now: Time, busy: set<Id>) returns (r: Result<nat, Error>)
      requires Valid()
      modifies this
      ensures Valid() && issued == old(issued)
      ensures !(1 <= limit <= 100) ==> r == Err(ValueError) && jobs == old(jobs)
      ensures 1 <= limit <= 100 ==>
                var ids := ToRecover(old(jobs), now, busy, limit);
                var op := Recover(ids, busy, limit, now);
                r == Ok(|ids|) && Allowed(old(jobs), issued, op) && jobs == Perform(old(jobs), issued, op)
    {
      if limit < 1 || limit > 100 {
        return Err(ValueError);
      }
      hide ToRecover, Perform, Allowed, TableOk, Batch, AbandonedIds, IssuedBy, RecoverAll;
      var ids := ToRecover(jobs, now, busy, limit);
      RecoverSelected(ids, busy, limit, now);
      return Ok(|ids|);
    }

    method RecoverSelected(ids: seq<Id>, busy: set<Id>, limit: nat, now: Time)
      requires Valid() && Allowed(jobs, issued, Recover(ids, busy, limit, now))
      modifies `jobs
      ensures Valid() && jobs == Perform(old(jobs), issued, Recover(ids, busy, limit, now))
    {
      RecoveryMeans(jobs, issued, Recover(ids, busy, limit, now));
      hide *;
      TableOkStep(jobs, issued, Recover(ids, busy, limit, now));
      RecoverJobs(ids, limit, now);
    }

    method RecoverJobs(ids: seq<Id>, limit: nat, now: Time)
      requires Batch(ids, jobs.Keys, limit)
      modifies `jobs
      ensures jobs == RecoverAll(old(jobs), ids, now)
    {
      ghost var before := jobs;
      assert jobs == RecoverAll(before, ids[..0], now);
      hide RecoverAll, Recovered;
      for i := 0 to |ids|
        invariant jobs == RecoverAll(before, ids[..i], now)
      {
        RecoverAllStep(before, ids, i, now);
        var job := RecoverJob(jobs[ids[i]], now);
        jobs := jobs[ids[i] := job];
      }
      assert ids[..|ids|] == ids;
    }
  }

  lemma BatchRows(ids: seq<Id>, eligible: set<Id>, limit: nat, t: Table)
    requires Batch(ids, eligible, limit) && eligible <= t.Keys
    ensures |ids| <= limit && Batch(ids, t.Keys, limit)
  {
  }

  lemma EligibleRows(t: Table, now: Time)
    ensures ClaimableIds(t, now) <= t.Keys && AbandonedIds(t, now) <= t.Keys
  {
  }

  lemma FreshPrefix(draws: seq<Token>, issued: set<Token>, n: nat)
    requires Fresh(draws, issued) && n <= |draws|
    ensures |draws[..n]| == n && Fresh(draws[..n], issued)
  {
  }

  lemma ClaimIsAllowed(t: Table, issued: set<Token>, busy: set<Id>, draws: seq<Token>, worker: string, lease: Time,
                       limit: nat, now: Time)
    requires Identifier(worker, 100) && 0 < lease <= MAX_LEASE && 1 <= limit <= 100
    requires Fresh(draws, issued) && |draws| >= limit
    ensures var ids := ToClaim(t, now, busy, limit);
            && |ids| <= |draws|
            && var op := Claim(ids, busy, draws[..|ids|], worker, lease, limit, now);
            && Allowed(t, issued, op)
            && Batch(ids, t.Keys, limit)
            && (forall i | 0 <= i < |ids| :: ids[i] in t)
            && Perform(t, issued, op) == ClaimAll(t, ids, draws[..|ids|], worker, lease, now)
  {
    var ids := ToClaim(t, now, busy, limit);
    EligibleRows(t, now);
    BatchRows(ids, ClaimableIds(t, now), limit, t);
    hide ToClaim, ClaimAll, Identifier, Batch, ClaimableIds;
    FreshPrefix(draws, issued, |ids|);
    hide Fresh;
  }

  lemma RecoveryMeans(t: Table, issued: set<Token>, op: Op)
    requires op.Recover? && Allowed(t, issued, op)
    ensures Perform(t, issued, op) == RecoverAll(t, op.ids, op.now) && issued + IssuedBy(op) == issued
    ensures Batch(op.ids, t.Keys, op.limit)
  {
    hide ToRecover, RecoverAll, Batch, AbandonedIds, ClaimableIds;
    EligibleRows(t, op.now);
    BatchRows(op.ids, AbandonedIds(t, op.now), op.limit, t);
  }
}
