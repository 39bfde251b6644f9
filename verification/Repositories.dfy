/**
 * The repositories over mutable rows (outbox/leased_repository.py, repository.py and
 * operations.py).  Each method is proved to perform the transaction the protocol uses.
 * Clock readings, fresh tokens and the rows other transactions have locked are parameters.
 */
module Repositories {
  import opened Basics
  import opened Canonical
  import opened Names
  import opened OutboxModel
  import opened OutboxTransactions

  datatype Error = ValueError | IntegrityError

  class OutboxMessage {
    const id: Id
    const envelope: Envelope
    var status: Status
    var attempts: nat
    var availableAt: Time
    var claimedAt: Option<Time>
    var publishedAt: Option<Time>
    var lastErrorCode: Option<string>
    var claimToken: Option<Token>
    var leaseExpiresAt: Option<Time>
    var deliveryFingerprint: Option<Fingerprint>
    var deliveryReceipts: Receipts
    var retryBudget: nat
    var deadlineAt: Option<Time>

    constructor (id: Id, envelope: Envelope, availableAt: Time)
      ensures this.id == id && Value() == NewRow(envelope, availableAt)
    {
      this.id, this.envelope, this.availableAt := id, envelope, availableAt;
      status, attempts := Pending, 0;
      claimedAt, publishedAt, lastErrorCode, claimToken, leaseExpiresAt := None, None, None, None, None;
      deliveryFingerprint, deliveryReceipts, retryBudget, deadlineAt := None, map[], 5, None;
    }

    function Value(): Row
      reads this
    {
      Row(envelope, status, attempts, availableAt, claimedAt, publishedAt, lastErrorCode, claimToken, leaseExpiresAt,
          deliveryFingerprint, deliveryReceipts, retryBudget, deadlineAt)
    }
  }

  class WorkerControl {
    var paused: bool
    var heartbeatAt: Time

    constructor (heartbeatAt: Time)
      ensures Value() == Control(false, heartbeatAt)
    {
      paused, this.heartbeatAt := false, heartbeatAt;
    }

    function Value(): Control
      reads this
    {
      Control(paused, heartbeatAt)
    }
  }

  /** The two tables as one session sees them. */
  class Session {
    var messages: map<Id, OutboxMessage>
    var controls: map<string, WorkerControl>

    constructor ()
      ensures Valid() && Snapshot() == Db(map[], map[])
    {
      messages, controls := map[], map[];
    }

    /** One object per row. */
    ghost predicate Valid()
      reads this, messages.Values, controls.Values
    {
      && (forall x | x in messages :: messages[x].id == x)
      && (forall g, h | g in controls && h in controls && g != h :: controls[g] != controls[h])
    }

    function Rows(): Rows
      reads `messages, messages.Values
    {
      map id | id in messages :: messages[id].Value()
    }

    function Controls(): map<string, Control>
      reads `controls, controls.Values
    {
      map g | g in controls :: controls[g].Value()
    }

    function Snapshot(): Db
      reads this, messages.Values, controls.Values
    {
      Db(Rows(), Controls())
    }

    /** Writing one row object rewrites one row of the table. */
    twostate lemma OneRowWritten(id: Id)
      requires old(Valid()) && messages == old(messages) && id in messages
      requires forall x | x in messages && x != id :: unchanged(messages[x])
      ensures messages[id].id == id
      ensures Rows() == old(Rows())[id := messages[id].Value()]
    {
    }

    twostate lemma OneControlWritten(g: string)
      requires old(Valid()) && controls == old(controls) && g in controls
      requires forall h | h in controls && h != g :: unchanged(controls[h])
      ensures Controls() == old(Controls())[g := controls[g].Value()]
    {
    }
  }

  predicate SafeTypes(types: seq<string>) {
    types != [] && forall i | 0 <= i < |types| :: SafeKey(types[i])
  }

  function TypeSet(types: seq<string>): set<string> {
    set t | t in types
  }

  class LeasedOutboxRepository {
    const session: Session
    const workerGroup: string

    constructor (session: Session, workerGroup: string)
      ensures this.session == session && this.workerGroup == workerGroup
    {
      this.session, this.workerGroup := session, workerGroup;
    }

    /** INSERT ... ON CONFLICT DO NOTHING, then lock the control row and stamp it. */
    method Beat(now: Time) returns (control: WorkerControl)
      requires session.Valid()
      modifies session`controls, session.controls.Values
      ensures session.Valid() && session.messages == old(session.messages)
      ensures fresh(session.controls.Values - old(session.controls.Values))
      ensures workerGroup in session.controls && control == session.controls[workerGroup]
      ensures session.Rows() == old(session.Rows())
      ensures session.Controls() == Heartbeat(old(session.Controls()), workerGroup, now)
      ensures workerGroup in session.Controls() && control.Value() == session.Controls()[workerGroup]
    {
      hide Session.Rows, Session.Controls;
      EnsureControl(now);
      control := session.controls[workerGroup];
      Stamp(control, now);
    }

    /** INSERT ... ON CONFLICT DO NOTHING. */
    method EnsureControl(now: Time)
      requires session.Valid()
      modifies session`controls
      ensures session.Valid() && session.messages == old(session.messages) && session.Rows() == old(session.Rows())
      ensures fresh(session.controls.Values - old(session.controls.Values)) && workerGroup in session.controls
      ensures session.Controls() == if workerGroup in old(session.Controls()) then old(session.Controls())
                                    else old(session.Controls())[workerGroup := Control(false, now)]
    {
      if workerGroup !in session.controls {
        var created := new WorkerControl(now);
        session.controls := session.controls[workerGroup := created];
      }
    }

    method Stamp(control: WorkerControl, now: Time)
      requires session.Valid() && workerGroup in session.controls && control == session.controls[workerGroup]
      modifies control
      ensures session.Valid() && session.Rows() == old(session.Rows()) && workerGroup in old(session.Controls())
      ensures session.Controls()
              == old(session.Controls())[workerGroup := old(session.Controls())[workerGroup].(heartbeatAt := now)]
      ensures control.Value() == session.Controls()[workerGroup]
    {
      control.heartbeatAt := now;
      session.OneControlWritten(workerGroup);
    }

    method ExpireRows(ids: seq<Id>)
      requires session.Valid()
      requires forall i | 0 <= i < |ids| :: ids[i] in session.messages
      requires forall i, j | 0 <= i < j < |ids| :: ids[i] < ids[j]
      modifies session.messages.Values
      ensures session.Valid() && session.Rows() == Swept(old(session.Rows()), ids)
    {
      ghost var before := session.Rows();
      assert session.Rows() == Swept(before, ids[..0]);
      hide Swept, Expire;
      for i := 0 to |ids|
        invariant session.Valid() && session.messages == old(session.messages)
        invariant session.Rows() == Swept(before, ids[..i])
      {
        var row := session.messages[ids[i]];
        SweptStep(before, ids, i);
        assert row.Value() == session.Rows()[ids[i]] == before[ids[i]];
        label write:
        ExpireRow(row);
        session.OneRowWritten@write(ids[i]);
      }
      assert ids[..|ids|] == ids;
    }

    static method ExpireRow(row: OutboxMessage)
      modifies row
      ensures row.Value() == Expire(old(row.Value()))
    {
      row.status := if row.deliveryFingerprint.Some? then Uncertain else Dead;
      row.lastErrorCode := Some("delivery_budget_expired");
      row.claimToken := None;
      row.leaseExpiresAt := None;
    }

    /**
     * Claim at most one due message.  Expired rows are given up first; busySweep and busyPick
     * are the rows SKIP LOCKED passes over in the two queries, token is the fresh uuid4().
     */
    method Claim(eventTypes: seq<string>, settings: Settings, now: Time, busySweep: set<Id>, busyPick: set<Id>,
                 token: Token) returns (r: Result<Option<Claim>, Error>)
      requires session.Valid()
      modifies session`controls, session.controls.Values, session.messages.Values
      ensures session.Valid() && session.messages == old(session.messages)
      ensures fresh(session.controls.Values - old(session.controls.Values))
      ensures r.Err? <==> eventTypes == [] || exists i | 0 <= i < |eventTypes| :: !SafeKey(eventTypes[i])
      ensures SafeTypes(eventTypes) ==> r.Ok?
      ensures !SafeTypes(eventTypes) ==> r == Err(ValueError) && session.Snapshot() == old(session.Snapshot())
      ensures SafeTypes(eventTypes) ==>
                (session.Snapshot(), r.value)
                == ClaimTx(old(session.Snapshot()), workerGroup, TypeSet(eventTypes), now, settings, busySweep,
                           busyPick, token)
    {
      assert SafeTypes(eventTypes) <==> eventTypes != [] && forall i | 0 <= i < |eventTypes| :: SafeKey(eventTypes[i]);
      hide SafeKey, ClaimRows, SafeTypes, TypeSet, Heartbeat, Session.Valid, Session.Rows, Session.Controls;
      if !SafeTypes(eventTypes) {
        return Err(ValueError);
      }
      var types := TypeSet(eventTypes);
      var control := Beat(now);
      if control.paused {
        return Ok(None);
      }
      var claim := ClaimRow(types, settings, now, busySweep, busyPick, token);
      return Ok(claim);
    }

    /** The part of a claim after the pause check. */
    method ClaimRow(types: set<string>, settings: Settings, now: Time, busySweep: set<Id>, busyPick: set<Id>,
                    token: Token) returns (claim: Option<Claim>)
      requires session.Valid()
      modifies session.messages.Values
      ensures session.Valid() && session.Controls() == old(session.Controls())
      ensures (session.Rows(), claim)
              == ClaimRows(old(session.Rows()), types, now, settings, busySweep, busyPick, token)
    {
      hide SweepIds, PickRows, Swept;
      var expired := SweepIds(session.Rows(), types, now, busySweep);
      SweptRowsExist(session.Rows(), types, now, busySweep);
      ExpireRows(expired);
      claim := PickRow(types, settings, now, busyPick, token);
    }

    method PickRow(types: set<string>, settings: Settings, now: Time, busy: set<Id>, token: Token)
      returns (claim: Option<Claim>)
      requires session.Valid()
      modifies session.messages.Values
      ensures session.Valid()
      ensures (session.Rows(), claim) == PickRows(old(session.Rows()), types, now, settings, busy, token)
    {
      hide ClaimIds, ClaimDeadline, TooOld, Taken;
      var ready := ClaimIds(session.Rows(), types, now, busy);
      ReadyRowsExist(session.Rows(), types, now, busy);
      if ready == {} {
        return None;
      }
      var row := session.messages[First(session.Rows(), ready)];
      label write:
      claim := TakeRow(row, settings, now, token);
      session.OneRowWritten@write(row.id);
    }

    /** Give the chosen row to the caller, or give it up when its delivery window has closed. */
    static method TakeRow(row: OutboxMessage, settings: Settings, now: Time, token: Token)
      returns (claim: Option<Claim>)
      modifies row
      ensures var r := old(row.Value());
              var deadline := ClaimDeadline(r, now, settings);
              if deadline <= now then row.Value() == TooOld(r, deadline) && claim == None
              else
                var taken := Taken(r, now, deadline, settings, token);
                row.Value() == taken && claim == Some(ClaimOf(row.id, taken, deadline, token))
    {
      var deadline := Min(row.deadlineAt.GetOr(now + settings.maxAgeSeconds * SECOND),
                          row.envelope.occurredAt + settings.maxAgeSeconds * SECOND);
      row.deadlineAt := Some(deadline);
      if deadline <= now {
        row.status := if row.deliveryFingerprint.Some? then Uncertain else Dead;
        row.lastErrorCode := Some("delivery_too_old");
        return None;
      }
      if row.attempts == 0 {
        row.retryBudget := settings.maxAttempts;
      }
      row.status := Processing;
      row.leaseExpiresAt := Some(now + settings.leaseSeconds * SECOND);
      row.claimedAt := Some(now);
      row.attempts := row.attempts + 1;
      row.claimToken := Some(token);
      var event := if row.envelope.decodes then Some(row.envelope) else None;
      return Some(OutboxModel.Claim(row.id, token, event, row.attempts, row.retryBudget, deadline,
                                    row.deliveryReceipts));
    }

    /** The claimed row, while the claim still holds it at time `at`. */
    method Owned(claim: Claim, at: Time) returns (row: Option<OutboxMessage>)
      requires session.Valid()
      ensures row.Some? <==> OutboxTransactions.Owned(session.Rows(), claim, at)
      ensures row.Some? ==> claim.messageId in session.messages && row.value == session.messages[claim.messageId]
    {
      if claim.messageId !in session.messages {
        return None;
      }
      var found := session.messages[claim.messageId];
      if found.claimToken == Some(claim.token) && found.status == Processing
         && found.leaseExpiresAt.Some? && found.leaseExpiresAt.value > at {
        return Some(found);
      }
      return None;
    }

    method Bind(claim: Claim, fingerprint: Fingerprint, expiresAt: Time, ownedAt: Time, now: Time)
      returns (allowed: bool)
      requires session.Valid()
      modifies session.messages.Values, session.controls.Values
      ensures session.Valid()
      ensures (session.Snapshot(), allowed)
              == BindTx(old(session.Snapshot()), workerGroup, claim, fingerprint, expiresAt, ownedAt, now)
    {
      hide BoundRow, Session.Valid, Session.Rows, Session.Controls;
      var found := Owned(claim, ownedAt);
      if found.None? {
        return false;
      }
      var verdict := BindOwned(found.value, claim, fingerprint, expiresAt, now);
      if verdict == ContentChanged {
        PauseGroup();
      }
      return verdict == Allowed;
    }

    /** The bind of a row that passed the fence, in its table. */
    method BindOwned(row: OutboxMessage, claim: Claim, fingerprint: Fingerprint, expiresAt: Time, now: Time)
      returns (verdict: BindVerdict)
      requires session.Valid() && claim.messageId in session.messages && row == session.messages[claim.messageId]
      modifies row
      ensures session.Valid() && session.Controls() == old(session.Controls())
      ensures claim.messageId in old(session.Rows())
      ensures var r := old(session.Rows())[claim.messageId];
              && verdict == BindDecision(r, claim, fingerprint, expiresAt, now)
              && session.Rows()
                 == old(session.Rows())[claim.messageId := BoundRow(r, claim, fingerprint, expiresAt, now)]
    {
      hide BoundRow, BindDecision;
      verdict := BindRow(row, claim, fingerprint, expiresAt, now);
      session.OneRowWritten(claim.messageId);
    }

    static method BindRow(row: OutboxMessage, claim: Claim, fingerprint: Fingerprint, expiresAt: Time, now: Time)
      returns (verdict: BindVerdict)
      modifies row
      ensures verdict == BindDecision(old(row.Value()), claim, fingerprint, expiresAt, now)
      ensures row.Value() == BoundRow(old(row.Value()), claim, fingerprint, expiresAt, now)
    {
      if row.deliveryFingerprint.Some? && row.deliveryFingerprint.value != fingerprint {
        row.status := Blocked;
        row.lastErrorCode := Some("delivery_content_changed");
        row.claimToken := None;
        row.leaseExpiresAt := None;
        return ContentChanged;
      }
      var deadline := Min(claim.deadline, expiresAt);
      row.deadlineAt := Some(deadline);
      if deadline <= now {
        row.status := if row.deliveryFingerprint.Some? then Uncertain else Skipped;
        row.lastErrorCode := Some("delivery_expired");
        row.claimToken := None;
        row.leaseExpiresAt := None;
        return Expired;
      }
      row.deliveryFingerprint := Some(fingerprint);
      return Allowed;
    }

    method PauseGroup()
      requires session.Valid()
      modifies session.controls.Values
      ensures session.Valid() && session.Rows() == old(session.Rows())
      ensures session.Controls() == Pause(old(session.Controls()), workerGroup)
    {
      if workerGroup in session.controls {
        label write:
        var control := session.controls[workerGroup];
        control.paused := true;
        session.OneControlWritten@write(workerGroup);
      }
    }

    method Finish(claim: Claim, outcome: Outcome, delay: Time, ownedAt: Time, now: Time) returns (applied: bool)
      requires session.Valid()
      modifies session.messages.Values, session.controls.Values
      ensures session.Valid()
      ensures (session.Snapshot(), applied)
              == FinishTx(old(session.Snapshot()), workerGroup, claim, outcome, delay, ownedAt, now)
    {
      hide FinishedRow, Session.Valid, Session.Rows, Session.Controls;
      var found := Owned(claim, ownedAt);
      if found.None? {
        return false;
      }
      var status := FinishOwned(found.value, claim, outcome, delay, now);
      if status == Blocked {
        PauseGroup();
      }
      return true;
    }

    /** The finish of a row that passed the fence, in its table. */
    method FinishOwned(row: OutboxMessage, claim: Claim, outcome: Outcome, delay: Time, now: Time)
      returns (status: Status)
      requires session.Valid() && claim.messageId in session.messages && row == session.messages[claim.messageId]
      modifies row
      ensures session.Valid() && session.Controls() == old(session.Controls())
      ensures claim.messageId in old(session.Rows())
      ensures var r := FinishedRow(old(session.Rows())[claim.messageId], claim, outcome, delay, now);
              status == r.status && session.Rows() == old(session.Rows())[claim.messageId := r]
    {
      hide FinishedRow;
      FinishRow(row, claim, outcome, delay, now);
      session.OneRowWritten(claim.messageId);
      status := row.status;
    }

    static method FinishRow(row: OutboxMessage, claim: Claim, outcome: Outcome, delay: Time, now: Time)
      modifies row
      ensures row.Value() == FinishedRow(old(row.Value()), claim, outcome, delay, now)
    {
      row.deliveryReceipts := row.deliveryReceipts + outcome.receipts;
      row.status := NextStatus(outcome.kind, row.attempts, row.retryBudget);
      row.availableAt := now + delay;
      row.lastErrorCode := Some(outcome.code);
      if row.status == Failed && row.availableAt >= row.deadlineAt.GetOr(claim.deadline) {
        row.status := if row.deliveryFingerprint.Some? then Uncertain else Dead;
      }
      row.publishedAt := if row.status == Published then Some(now) else None;
      row.claimToken := None;
      row.leaseExpiresAt := None;
      row.claimedAt := None;
    }
  }

  lemma SweptRowsExist(rows: Rows, types: set<string>, now: Time, busy: set<Id>)
    ensures var ids := SweepIds(rows, types, now, busy);
            && (forall i | 0 <= i < |ids| :: ids[i] in rows)
            && (forall i, j | 0 <= i < j < |ids| :: ids[i] < ids[j])
  {
    var ids := SweepIds(rows, types, now, busy);
    assert forall i | 0 <= i < |ids| :: ids[i] in ids;
  }

  lemma ReadyRowsExist(rows: Rows, types: set<string>, now: Time, busy: set<Id>)
    ensures ClaimIds(rows, types, now, busy) <= rows.Keys
  {
  }

  lemma SweptStep(rows: Rows, ids: seq<Id>, i: nat)
    requires i < |ids| && ids[i] in rows
    requires forall i, j | 0 <= i < j < |ids| :: ids[i] < ids[j]
    ensures ids[i] !in ids[..i]
    ensures Swept(rows, ids[..i])[ids[i]] == rows[ids[i]]
    ensures Swept(rows, ids[..i])[ids[i] := Expire(rows[ids[i]])] == Swept(rows, ids[..i + 1])
  {
    assert ids[..i + 1] == ids[..i] + [ids[i]];
  }

  // ---- operator recovery -----------------------------------------------------------

  method Replay(session: Session, id: Id, types: set<string>, prepared: Preparation, now: Time)
    returns (r: Result<(), Error>)
    requires session.Valid()
    modifies session.messages.Values
    ensures session.Valid()
    ensures (session.Rows(), r.Ok?) == ReplayTx(old(session.Rows()), id, types, prepared, now)
  {
    if id !in session.messages {
      return Err(ValueError);
    }
    var row := session.messages[id];
    ghost var before := row.Value();
    if row.envelope.eventType !in types || (row.status != Dead && row.status != Blocked) {
      return Err(ValueError);
    }
    if row.deadlineAt.None? || row.deadlineAt.value <= now || row.attempts >= MAX_REPLAY_ATTEMPTS {
      return Err(ValueError);
    }
    if !row.envelope.decodes || prepared.Refused? || prepared.expiresAt <= now {
      return Err(ValueError);
    }
    if row.deliveryFingerprint.Some? && row.deliveryFingerprint.value != prepared.fingerprint {
      return Err(ValueError);
    }
    ReplayRow(row, now);
    session.OneRowWritten(id);
    assert old(session.Rows())[id] == before;
    hide Session.Rows, Session.Valid, ReplayedRow;
    return Ok(());
  }

  method ReplayRow(row: OutboxMessage, now: Time)
    modifies row
    ensures row.Value() == ReplayedRow(old(row.Value()), now)
  {
    row.retryBudget := Min(MAX_REPLAY_ATTEMPTS, row.attempts + 3);
    row.status := Pending;
    row.availableAt := now;
    row.claimToken := None;
    row.leaseExpiresAt := None;
  }

  method Resume(session: Session, group: string) returns (r: Result<(), Error>)
    requires session.Valid()
    modifies session.controls.Values
    ensures session.Valid() && session.Rows() == old(session.Rows())
    ensures r.Ok? <==> group in old(session.Controls()) && old(session.Controls())[group].paused
    ensures session.Controls() ==
            if r.Ok? then old(session.Controls())[group := old(session.Controls())[group].(paused := false)]
            else old(session.Controls())
  {
    if group !in session.controls || !session.controls[group].paused {
      return Err(ValueError);
    }
    label write:
    var control := session.controls[group];
    control.paused := false;
    session.OneControlWritten@write(group);
    return Ok(());
  }

  // ---- ordinary repository ---------------------------------------------------------

  predicate ErrorCode(s: string) {
    SnakeCase(s) && |s| <= 100
  }

  predicate BatchTypes(types: Option<seq<string>>) {
    types.Some? ==> types.value != [] && forall i | 0 <= i < |types.value| :: ErrorCode(types.value[i])
  }

  /** A unique column of the staged row is already taken. */
  predicate Clashes(rows: Rows, staged: Envelope) {
    exists x | x in rows ::
      rows[x].envelope.eventId == staged.eventId || rows[x].envelope.idempotencyKey == staged.idempotencyKey
  }

  class OutboxRepository {
    const session: Session
    const maxAttempts: nat

    /** The constructor refuses budgets outside 1..100, so callers pass one inside. */
    constructor (session: Session, maxAttempts: nat)
      requires 1 <= maxAttempts <= 100
      ensures this.session == session && this.maxAttempts == maxAttempts
    {
      this.session, this.maxAttempts := session, maxAttempts;
    }

    /**
     * Stage one event under the caller's key, or under "event:" and the text of its id.  The
     * table refuses a second row for the same event or the same key.
     */
    method Add(id: Id, event: Envelope, uuid: string, idempotencyKey: Option<string>, availableAt: Option<Time>)
      returns (r: Result<OutboxMessage, Error>)
      requires session.Valid() && id !in session.messages
      modifies session`messages
      ensures session.Valid()
      ensures var staged := event.(idempotencyKey := idempotencyKey.GetOr("event:" + uuid));
              && (r == Err(ValueError) <==> !Identifier(staged.idempotencyKey, 255))
              && (r == Err(IntegrityError) <==>
                    && Identifier(staged.idempotencyKey, 255)
                    && exists x :: x in old(session.Rows())
                                   && (old(session.Rows())[x].envelope.eventId == staged.eventId
                                       || old(session.Rows())[x].envelope.idempotencyKey == staged.idempotencyKey))
              && (r.Ok? ==> session.Rows() ==
                            old(session.Rows())[id := NewRow(staged, availableAt.GetOr(event.occurredAt))])
      ensures r.Err? ==> session.messages == old(session.messages)
    {
      var staged := event.(idempotencyKey := idempotencyKey.GetOr("event:" + uuid));
      if !Identifier(staged.idempotencyKey, 255) {
        return Err(ValueError);
      }
      hide Identifier;
      if Clashes(session.Rows(), staged) {
        return Err(IntegrityError);
      }
      r := Insert(id, staged, availableAt.GetOr(event.occurredAt));
    }

    method Insert(id: Id, staged: Envelope, availableAt: Time) returns (r: Result<OutboxMessage, Error>)
      requires session.Valid() && id !in session.messages
      modifies session`messages
      ensures session.Valid() && r.Ok? && session.Rows() == old(session.Rows())[id := NewRow(staged, availableAt)]
    {
      hide NewRow;
      var message := new OutboxMessage(id, staged, availableAt);
      session.messages := session.messages[id := message];
      return Ok(message);
    }

    method ClaimBatch(limit: int, now: Time, eventTypes: Option<seq<string>>, busy: set<Id>)
      returns (r: Result<seq<Id>, Error>)
      requires session.Valid()
      modifies session.messages.Values
      ensures session.Valid()
      ensures r.Ok? <==>
                && 1 <= limit <= 100
                && (eventTypes.Some? ==>
                      && eventTypes.value != []
                      && forall i | 0 <= i < |eventTypes.value| ::
                           SnakeCase(eventTypes.value[i]) && |eventTypes.value[i]| <= 100)
      ensures r.Err? ==> session.Rows() == old(session.Rows())
      ensures r.Ok? ==>
                var types := if eventTypes.Some? then Some(TypeSet(eventTypes.value)) else None;
                && r.value == Batch(old(session.Rows()), types, maxAttempts, limit, now, busy)
                && session.Rows() == BatchTx(old(session.Rows()), r.value, now)
    {
      if limit < 1 || limit > 100 || !BatchTypes(eventTypes) {
        return Err(ValueError);
      }
      var types := if eventTypes.Some? then Some(TypeSet(eventTypes.value)) else None;
      hide Batch, BatchTx;
      var ids := Batch(session.Rows(), types, maxAttempts, limit, now, busy);
      BatchIsDistinct(session.Rows(), types, maxAttempts, limit, now, busy);
      TakeAll(ids, now);
      return Ok(ids);
    }

    method TakeAll(ids: seq<Id>, now: Time)
      requires session.Valid()
      requires forall i | 0 <= i < |ids| :: ids[i] in session.messages
      requires forall i, j | 0 <= i < j < |ids| :: ids[i] != ids[j]
      modifies session.messages.Values
      ensures session.Valid() && session.Rows() == BatchTx(old(session.Rows()), ids, now)
    {
      ghost var before := session.Rows();
      assert session.Rows() == BatchTx(before, ids[..0], now);
      hide BatchTx, OrdinaryTaken;
      for i := 0 to |ids|
        invariant session.Valid() && session.messages == old(session.messages)
        invariant session.Rows() == BatchTx(before, ids[..i], now)
      {
        BatchStep(before, ids, i, now);
        var message := session.messages[ids[i]];
        assert message.Value() == session.Rows()[ids[i]] == before[ids[i]];
        label write:
        TakeRow(message, now);
        session.OneRowWritten@write(ids[i]);
      }
      assert ids[..|ids|] == ids;
    }

    static method TakeRow(message: OutboxMessage, now: Time)
      modifies message
      ensures message.Value() == OrdinaryTaken(old(message.Value()), now)
    {
      message.status := Processing;
      message.attempts := message.attempts + 1;
      message.claimedAt := Some(now);
      message.publishedAt := None;
      message.lastErrorCode := None;
    }

    method MarkPublished(id: Id, at: Time) returns (applied: bool)
      requires session.Valid()
      modifies session.messages.Values
      ensures session.Valid() && (session.Rows(), applied) == MarkPublishedTx(old(session.Rows()), id, at)
    {
      if id !in session.messages || session.messages[id].status == Published {
        return false;
      }
      var message := session.messages[id];
      if message.claimToken.Some? || message.status != Processing {
        return false;
      }
      label write:
      message.status := Published;
      message.claimedAt := None;
      message.publishedAt := Some(at);
      message.lastErrorCode := None;
      session.OneRowWritten@write(id);
      return true;
    }

    method MarkFailed(id: Id, errorCode: string, availableAt: Time) returns (r: Result<bool, Error>)
      requires session.Valid()
      modifies session.messages.Values
      ensures session.Valid()
      ensures r.Ok? <==> SnakeCase(errorCode) && |errorCode| <= 100
      ensures r.Err? ==> session.Rows() == old(session.Rows())
      ensures r.Ok? ==> (session.Rows(), r.value) == MarkFailedTx(old(session.Rows()), id, errorCode, availableAt)
    {
      if !ErrorCode(errorCode) {
        return Err(ValueError);
      }
      if id !in session.messages || session.messages[id].status != Processing {
        return Ok(false);
      }
      ghost var before := session.messages[id].Value();
      FailRow(session.messages[id], errorCode, availableAt);
      session.OneRowWritten(id);
      assert old(session.Rows())[id] == before;
      hide Session.Rows, Session.Valid, ErrorCode;
      return Ok(true);
    }

    static method FailRow(message: OutboxMessage, errorCode: string, availableAt: Time)
      modifies message
      ensures message.Value() == old(message.Value()).(status := Failed, claimedAt := None, publishedAt := None,
                                                       errorCode := Some(errorCode), availableAt := availableAt)
    {
      message.status := Failed;
      message.claimedAt := None;
      message.publishedAt := None;
      message.lastErrorCode := Some(errorCode);
      message.availableAt := availableAt;
    }

    /** Rows in `busy` are locked by other transactions. */
    method RecoverStaleClaims(staleBefore: Time, availableAt: Time, limit: int, busy: set<Id>)
      returns (r: Result<nat, Error>)
      requires session.Valid()
      modifies session.messages.Values
      ensures session.Valid()
      ensures if 1 <= limit <= 100 then
                var stale := ToRelease(old(session.Rows()), staleBefore, limit, busy);
                r == Ok(|stale|) && session.Rows() == RecoverTx(old(session.Rows()), stale, availableAt)
              else
                r == Err(ValueError) && session.Rows() == old(session.Rows())
    {
      if limit < 1 || limit > 100 {
        return Err(ValueError);
      }
      hide ToRelease, RecoverTx;
      var stale := ToRelease(session.Rows(), staleBefore, limit, busy);
      ReleaseIsDistinct(session.Rows(), staleBefore, limit, busy);
      ReleaseAll(stale, availableAt);
      return Ok(|stale|);
    }

    method ReleaseAll(ids: seq<Id>, availableAt: Time)
      requires session.Valid()
      requires forall i | 0 <= i < |ids| :: ids[i] in session.messages
      requires forall i, j | 0 <= i < j < |ids| :: ids[i] != ids[j]
      modifies session.messages.Values
      ensures session.Valid() && session.Rows() == RecoverTx(old(session.Rows()), ids, availableAt)
    {
      ghost var before := session.Rows();
      assert session.Rows() == RecoverTx(before, ids[..0], availableAt);
      hide RecoverTx, Released;
      for i := 0 to |ids|
        invariant session.Valid() && session.messages == old(session.messages)
        invariant session.Rows() == RecoverTx(before, ids[..i], availableAt)
      {
        RecoverStep(before, ids, i, availableAt);
        var message := session.messages[ids[i]];
        assert message.Value() == session.Rows()[ids[i]] == before[ids[i]];
        label write:
        ReleaseRow(message, availableAt);
        session.OneRowWritten@write(ids[i]);
      }
      assert ids[..|ids|] == ids;
    }

    static method ReleaseRow(message: OutboxMessage, availableAt: Time)
      modifies message
      ensures message.Value() == Released(old(message.Value()), availableAt)
    {
      message.status := Failed;
      message.claimedAt := None;
      message.publishedAt := None;
      message.lastErrorCode := Some("claim_expired");
      message.availableAt := availableAt;
    }
  }

  lemma BatchIsDistinct(rows: Rows, types: Option<set<string>>, maxAttempts: nat, limit: nat, now: Time, busy: set<Id>)
    ensures var ids := Batch(rows, types, maxAttempts, limit, now, busy);
            && (forall i | 0 <= i < |ids| :: ids[i] in rows)
            && (forall i, j | 0 <= i < j < |ids| :: ids[i] != ids[j])
  {
    var ids := Batch(rows, types, maxAttempts, limit, now, busy);
    assert forall i | 0 <= i < |ids| :: ids[i] in ids;
  }

  lemma BatchStep(rows: Rows, ids: seq<Id>, i: nat, now: Time)
    requires i < |ids| && ids[i] in rows
    requires forall i, j | 0 <= i < j < |ids| :: ids[i] != ids[j]
    ensures ids[i] in BatchTx(rows, ids[..i], now) && BatchTx(rows, ids[..i], now)[ids[i]] == rows[ids[i]]
    ensures BatchTx(rows, ids[..i], now)[ids[i] := OrdinaryTaken(rows[ids[i]], now)] == BatchTx(rows, ids[..i + 1], now)
  {
    assert ids[..i + 1] == ids[..i] + [ids[i]];
  }

  lemma ReleaseIsDistinct(rows: Rows, staleBefore: Time, limit: nat, busy: set<Id>)
    ensures var ids := ToRelease(rows, staleBefore, limit, busy);
            && (forall i | 0 <= i < |ids| :: ids[i] in rows)
            && (forall i, j | 0 <= i < j < |ids| :: ids[i] != ids[j])
  {
    var ids := ToRelease(rows, staleBefore, limit, busy);
    forall i | 0 <= i < |ids| ensures ids[i] in rows {
      assert ids[i] in ids;
    }
  }

  lemma RecoverStep(rows: Rows, ids: seq<Id>, i: nat, at: Time)
    requires i < |ids| && ids[i] in rows
    requires forall i, j | 0 <= i < j < |ids| :: ids[i] != ids[j]
    ensures ids[i] in RecoverTx(rows, ids[..i], at) && RecoverTx(rows, ids[..i], at)[ids[i]] == rows[ids[i]]
    ensures RecoverTx(rows, ids[..i], at)[ids[i] := Released(rows[ids[i]], at)] == RecoverTx(rows, ids[..i + 1], at)
  {
    assert ids[..i + 1] == ids[..i] + [ids[i]];
  }
}
