/**
 * Values of the transactional outbox: rows, delivery outcomes, runner settings and the
 * retry policy (outbox/model.py, outcomes.py, settings.py, retry.py).
 */
module OutboxModel {
  import opened Basics
  import opened Canonical

  // UUIDs, in their database order.
  type Id = nat
  type Token = nat

  datatype Status = Pending | Processing | Published | Failed | Dead | Skipped | Uncertain | Blocked

  datatype Aggregate = Aggregate(kind: string, id: Id)

  /**
   * The columns no operation rewrites.  `decodes` says whether to_event() can rebuild the
   * event from the stored row; EventPayload proves that it can for every row staged by add.
   */
  datatype Envelope = Envelope(
    eventId: Id, idempotencyKey: string, eventType: string, aggregate: Aggregate, version: int, occurredAt: Time,
    decodes: bool)

  // Provider message ids by recipient index.
  type Receipts = map<nat, string>

  datatype Row = Row(
    envelope: Envelope, status: Status, attempts: nat, availableAt: Time, claimedAt: Option<Time>,
    publishedAt: Option<Time>, errorCode: Option<string>, token: Option<Token>, lease: Option<Time>,
    fingerprint: Option<Fingerprint>, receipts: Receipts, retryBudget: nat, deadline: Option<Time>)

  type Rows = map<Id, Row>

  datatype Control = Control(paused: bool, heartbeatAt: Time)

  datatype Db = Db(rows: Rows, controls: map<string, Control>)

  datatype Kind = Accepted | Retry | Permanent | Skip | Unsure | Block

  datatype Outcome = Outcome(kind: Kind, code: string, retryAfter: nat, receipts: Receipts)

  /** An outcome that carries neither a delay nor receipts. */
  function Plain(kind: Kind, code: string): Outcome {
    Outcome(kind, code, 0, map[])
  }

  datatype Settings = Settings(
    maxAttempts: nat, retryBaseSeconds: nat, retryMaxSeconds: nat, prepareSeconds: nat, sendSeconds: nat,
    leaseSeconds: nat, maxAgeSeconds: nat)
  {
    predicate Valid() {
      && 1 <= maxAttempts <= 100
      && 1 <= retryBaseSeconds <= 300
      && 1 <= retryMaxSeconds <= 3600
      && 1 <= prepareSeconds <= 30
      && 1 <= sendSeconds <= 60
      && 30 <= leaseSeconds <= 300
      && 60 <= maxAgeSeconds <= 82800
      && retryBaseSeconds <= retryMaxSeconds
      && prepareSeconds + sendSeconds + 30 < leaseSeconds
    }
  }

  const MAX_REPLAY_ATTEMPTS: nat := 100

  function NextStatus(kind: Kind, attempt: nat, maxAttempts: nat): Status {
    match kind
    case Accepted => Published
    case Skip => Skipped
    case Block => Blocked
    case Permanent => Dead
    case Unsure => if attempt >= maxAttempts then Uncertain else Failed
    case Retry => if attempt >= maxAttempts then Dead else Failed
  }

  function RetryCeiling(attempt: int, settings: Settings): Time
    requires attempt >= 1
  {
    Min(settings.retryMaxSeconds, settings.retryBaseSeconds * Pow2(Min(attempt - 1, 20))) * SECOND
  }

  /** The delay before the next attempt; jitter is the uniform draw from [0, ceiling]. */
  function NextDelay(attempt: int, outcome: Outcome, jitter: Time): Option<Time> {
    if attempt < 1 then None
    else Some(Max(SECOND, Max(jitter, outcome.retryAfter * SECOND)))
  }

  /** A claim handed to a worker (leased_repository.py, Claim). */
  datatype Claim = Claim(
    messageId: Id, token: Token, event: Option<Envelope>, attempts: nat, retryBudget: nat, deadline: Time,
    receipts: Receipts)
}
