/**
 * The leased delivery protocol as a state machine: any number of workers
 * (outbox/leased_worker.py), an e-mail provider that remembers idempotency keys for a
 * day, operators who replay and resume, and the ordinary outbox runner on the same table.
 */
module Protocol {
  import opened Basics
  import opened Canonical
  import opened OutboxModel
  import opened OutboxTransactions
  import opened Sender

  const GROUP := "auth_email"
  const LEASED_TYPES: set<string> := {CHALLENGE_EVENT}

  const DAY: Time := 86400 * SECOND
  const UNIT_OF_WORK: Time := 15 * SECOND  // the bound on one database context
  const HANDOVER: Time := SECOND / 4       // local work between two bounded phases

  type Worker = nat

  datatype Delivery = Delivery(submission: Submission, expiresAt: Time)

  /** Where a worker stands inside process_one; `due` is when the running time bound ends. */
  datatype Phase =
    | Preparing(claim: Claim, settings: Settings, due: Time)
    | Binding(claim: Claim, delivery: Delivery, settings: Settings, due: Time)
    | Bound(claim: Claim, delivery: Delivery, settings: Settings, due: Time)
    | Sending(claim: Claim, delivery: Delivery, settings: Settings, due: Time, next: nat, receipts: Receipts,
              waiting: bool)
    | Finishing(claim: Claim, outcome: Outcome, settings: Settings)

  /** A request handed to the network at time `at`. */
  datatype Sent = Sent(messageId: Id, request: Request, at: Time)

  /** The provider took a request as a new submission. */
  datatype Acceptance = Acceptance(sent: Sent, receipt: string, at: Time)

  /**
   * issued, unbound, batched and firstDue are history: the message each token was issued
   * for, the tokens whose claim has not reached bind, the rows handed out by claim_batch,
   * and when a row first got a deadline.
   */
  datatype State = State(
    db: Db, workers: map<Worker, Phase>, issued: map<Token, Id>, unbound: set<Token>, batched: set<Id>,
    wire: set<Sent>, accepted: set<Acceptance>, firstDue: map<Id, Time>, clock: Time)

  datatype Action =
    | Tick(to: Time)
    | Add(id: Id, envelope: Envelope, availableAt: Time)
    | ClaimOne(w: Worker, now: Time, settings: Settings, busySweep: set<Id>, busyPick: set<Id>, token: Token)
    | Prepared(w: Worker, delivery: Delivery)
    | NotPrepared(w: Worker, outcome: Outcome)
    | Bind(w: Worker, ownedAt: Time, now: Time)
    | Ineligible(w: Worker)
    | StartSend(w: Worker)
    | SkipCompleted(w: Worker)
    | Transmit(w: Worker)
    | Process(sent: Sent, receipt: string)
    | Respond(w: Worker, verdict: Verdict)
    | Complete(w: Worker)
    | Abort(w: Worker, failed: bool)
    | Finish(w: Worker, ownedAt: Time, now: Time, jitter: Time)
    | Crash(w: Worker)
    | Replay(id: Id, prepared: Preparation)
    | Resume
    | OrdinaryClaim(types: Option<set<string>>, maxAttempts: nat, limit: nat, now: Time, busy: set<Id>)
    | OrdinaryPublish(id: Id, at: Time)
    | OrdinaryFail(id: Id, code: string, availableAt: Time)
    | OrdinaryRecover(stale: seq<Id>, staleBefore: Time, availableAt: Time)

  predicate Leased(r: Row) {
    r.envelope.eventType == CHALLENGE_EVENT
  }

  /** The provider still remembers the key at time `at`. */
  predicate Remembered(accepted: set<Acceptance>, key: Key, at: Time) {
    exists a | a in accepted :: a.sent.request.key == key && at < a.at + DAY
  }

  /** What an idempotent provider may answer to a submitted request. */
  predicate Honest(accepted: set<Acceptance>, request: Request, verdict: Verdict) {
    && (verdict.Receipt? ==>
          exists a | a in accepted :: a.sent.request == request && a.receipt == verdict.id)
    && (verdict.Stop? ==> verdict.kind in {Retry, Permanent, Unsure, Block})
    && (verdict.Stop? && verdict.code == "provider_key_conflict" ==>
          exists a | a in accepted :: a.sent.request.key == request.key && a.sent.request != request)
  }

  predicate At(s: State, w: Worker) {
    w in s.workers
  }

  predicate Enabled(s: State, a: Action) {
    match a
    case Tick(to) => s.clock <= to
    case Add(id, envelope, _) =>
      && id !in s.db.rows
      && (forall x | x in s.db.rows :: s.db.rows[x].envelope.eventId != envelope.eventId)
    case ClaimOne(w, now, settings, _, _, token) =>
      w !in s.workers && now <= s.clock && settings.Valid() && token !in s.issued
    case Prepared(w, delivery) =>
      && At(s, w) && s.workers[w].Preparing?
      && s.workers[w].claim.event.Some?
      && WellFormed(delivery.submission, s.workers[w].claim.event.value.eventId)
    case NotPrepared(w, outcome) =>
      && At(s, w) && s.workers[w].Preparing?
      && outcome.kind in {Permanent, Skip, Block, Retry} && outcome.receipts == map[]
    case Bind(w, ownedAt, now) => At(s, w) && s.workers[w].Binding? && ownedAt <= now <= s.clock
    case Ineligible(w) => At(s, w) && s.workers[w].Bound?
    case StartSend(w) => At(s, w) && s.workers[w].Bound?
    case SkipCompleted(w) =>
      && At(s, w) && s.workers[w].Sending?
      && var p := s.workers[w];
      !p.waiting && p.next < |p.delivery.submission.requests| && p.next in p.receipts
    case Transmit(w) =>
      && At(s, w) && s.workers[w].Sending?
      && var p := s.workers[w];
      !p.waiting && p.next < |p.delivery.submission.requests| && p.next !in p.receipts
    case Process(sent, _) => sent in s.wire
    case Respond(w, verdict) =>
      && At(s, w) && s.workers[w].Sending?
      && var p := s.workers[w];
      && p.waiting && p.next < |p.delivery.submission.requests|
      && Honest(s.accepted, p.delivery.submission.requests[p.next], verdict)
    case Complete(w) =>
      && At(s, w) && s.workers[w].Sending?
      && var p := s.workers[w];
      !p.waiting && p.next == |p.delivery.submission.requests|
    case Abort(w, _) => At(s, w) && s.workers[w].Sending?
    case Finish(w, ownedAt, now, jitter) =>
      && At(s, w) && s.workers[w].Finishing? && ownedAt <= now <= s.clock
      && var p := s.workers[w];
      p.claim.attempts >= 1 && 0 <= jitter <= RetryCeiling(p.claim.attempts, p.settings)
    case Crash(w) => At(s, w)
    case Replay(id, prepared) => Replayable(s.db.rows, id, LEASED_TYPES, prepared, s.clock)
    case Resume => GROUP in s.db.controls && s.db.controls[GROUP].paused
    case OrdinaryClaim(_, maxAttempts, limit, _, _) => 1 <= maxAttempts <= 100 && 1 <= limit <= 100
    case OrdinaryPublish(id, _) => id in s.batched
    case OrdinaryFail(id, _, _) => id in s.batched
    case OrdinaryRecover(stale, staleBefore, _) =>
      forall id | id in stale :: id in s.db.rows && Stale(s.db.rows[id], staleBefore)
  }

  function Move(s: State, w: Worker, p: Phase): State {
    s.(workers := s.workers[w := p])
  }

  function Leave(s: State, w: Worker): State {
    s.(workers := s.workers - {w})
  }

  function AfterClaim(claim: Claim, settings: Settings, clock: Time): Phase {
    if claim.event.Some? then Preparing(claim, settings, clock + settings.prepareSeconds * SECOND + HANDOVER)
    else Finishing(claim, Plain(Permanent, "invalid_event"), settings)
  }

  /** Rows that got their first deadline in this step are dated `now`. */
  function FirstDue(firstDue: map<Id, Time>, before: Rows, after: Rows, now: Time): map<Id, Time> {
    firstDue + map id | id in after && after[id].deadline.Some? && id in before && before[id].deadline.None? :: now
  }

  function ApplyClaim(s: State, w: Worker, now: Time, settings: Settings, busySweep: set<Id>, busyPick: set<Id>,
                      token: Token): State
  {
    var (db, claim) := ClaimTx(s.db, GROUP, LEASED_TYPES, now, settings, busySweep, busyPick, token);
    var t := s.(db := db, firstDue := FirstDue(s.firstDue, s.db.rows, db.rows, now));
    match claim
    case None => t
    case Some(c) =>
      var phase := AfterClaim(c, settings, s.clock);
      t.(workers := s.workers[w := phase], issued := s.issued[token := c.messageId],
         unbound := if phase.Preparing? then s.unbound + {token} else s.unbound)
  }

  function ApplyBind(s: State, w: Worker, ownedAt: Time, now: Time): State
    requires Enabled(s, Bind(w, ownedAt, now))
  {
    var p := s.workers[w];
    var fingerprint := p.delivery.submission.fingerprint;
    var (db, allowed) := BindTx(s.db, GROUP, p.claim, fingerprint, p.delivery.expiresAt, ownedAt, now);
    var t := s.(db := db, unbound := s.unbound - {p.claim.token});
    if allowed then Move(t, w, Bound(p.claim, p.delivery, p.settings, s.clock + HANDOVER)) else Leave(t, w)
  }

  function ApplyFinish(s: State, w: Worker, ownedAt: Time, now: Time, jitter: Time): State
    requires Enabled(s, Finish(w, ownedAt, now, jitter))
  {
    var p := s.workers[w];
    var delay := NextDelay(p.claim.attempts, p.outcome, jitter).value;
    Leave(s, w).(db := FinishTx(s.db, GROUP, p.claim, p.outcome, delay, ownedAt, now).0)
  }

  function ApplyRespond(s: State, w: Worker, verdict: Verdict): State
    requires Enabled(s, Respond(w, verdict))
  {
    var p := s.workers[w];
    match verdict
    case Receipt(id) => Move(s, w, p.(next := p.next + 1, receipts := p.receipts[p.next := id], waiting := false))
    case Stop(_, _, _) => Move(s, w, Finishing(p.claim, Stopped(verdict, p.receipts), p.settings))
  }

  function WithRows(s: State, rows: Rows): State {
    s.(db := s.db.(rows := rows))
  }

  function Apply(s: State, a: Action): State
    requires Enabled(s, a)
  {
    match a
    case Tick(to) => s.(clock := to)
    case Add(id, envelope, availableAt) => WithRows(s, s.db.rows[id := NewRow(envelope, availableAt)])
    case ClaimOne(w, now, settings, busySweep, busyPick, token) =>
      ApplyClaim(s, w, now, settings, busySweep, busyPick, token)
    case Prepared(w, delivery) =>
      var p := s.workers[w];
      Move(s, w, Binding(p.claim, delivery, p.settings, s.clock + UNIT_OF_WORK + HANDOVER))
    case NotPrepared(w, outcome) => Move(s, w, Finishing(s.workers[w].claim, outcome, s.workers[w].settings)).(
        unbound := s.unbound - {s.workers[w].claim.token})
    case Bind(w, ownedAt, now) => ApplyBind(s, w, ownedAt, now)
    case Ineligible(w) =>
      Move(s, w, Finishing(s.workers[w].claim, Plain(Skip, "no_longer_eligible"), s.workers[w].settings))
    case StartSend(w) =>
      var p := s.workers[w];
      Move(s, w, Sending(p.claim, p.delivery, p.settings, s.clock + p.settings.sendSeconds * SECOND, 0,
                         p.claim.receipts, false))
    case SkipCompleted(w) => Move(s, w, s.workers[w].(next := s.workers[w].next + 1))
    case Transmit(w) =>
      var p := s.workers[w];
      Move(s, w, p.(waiting := true)).(
        wire := s.wire + {Sent(p.claim.messageId, p.delivery.submission.requests[p.next], s.clock)})
    case Process(sent, receipt) =>
      if Remembered(s.accepted, sent.request.key, s.clock) then s
      else s.(accepted := s.accepted + {Acceptance(sent, receipt, s.clock)})
    case Respond(w, verdict) => ApplyRespond(s, w, verdict)
    case Complete(w) =>
      var p := s.workers[w];
      Move(s, w, Finishing(p.claim, Outcome(Accepted, "provider_accepted", 0, p.receipts), p.settings))
    case Abort(w, failed) =>
      var outcome := if failed then Plain(Block, "handler_failure") else Plain(Unsure, "submission_timeout");
      Move(s, w, Finishing(s.workers[w].claim, outcome, s.workers[w].settings))
    case Finish(w, ownedAt, now, jitter) => ApplyFinish(s, w, ownedAt, now, jitter)
    case Crash(w) => Leave(s, w).(unbound := s.unbound - {s.workers[w].claim.token})
    case Replay(id, prepared) => WithRows(s, ReplayTx(s.db.rows, id, LEASED_TYPES, prepared, s.clock).0)
    case Resume => s.(db := s.db.(controls := s.db.controls[GROUP := s.db.controls[GROUP].(paused := false)]))
    case OrdinaryClaim(types, maxAttempts, limit, now, busy) =>
      var batch := Batch(s.db.rows, types, maxAttempts, limit, now, busy);
      WithRows(s, BatchTx(s.db.rows, batch, now)).(batched := s.batched + set id | id in batch)
    case OrdinaryPublish(id, at) => WithRows(s, MarkPublishedTx(s.db.rows, id, at).0)
    case OrdinaryFail(id, code, availableAt) => WithRows(s, MarkFailedTx(s.db.rows, id, code, availableAt).0)
    case OrdinaryRecover(stale, _, availableAt) => WithRows(s, RecoverTx(s.db.rows, stale, availableAt))
  }

  ghost predicate Next(s: State, a: Action, t: State) {
    Enabled(s, a) && t == Apply(s, a)
  }

  predicate Initial(s: State) {
    && s.db.rows == map[] && s.workers == map[] && s.issued == map[] && s.unbound == {} && s.batched == {}
    && s.wire == {} && s.accepted == {} && s.firstDue == map[]
  }

  /** states[i + 1] follows states[i] by actions[i], from an empty table. */
  ghost predicate Run(states: seq<State>, actions: seq<Action>) {
    && |states| == |actions| + 1
    && Initial(states[0])
    && forall i | 0 <= i < |actions| :: Next(states[i], actions[i], states[i + 1])
  }
}
