/** The inductive invariant of the protocol, in five parts. */
module Invariant {
  import opened Basics
  import opened Canonical
  import opened OutboxModel
  import opened OutboxTransactions
  import opened Sender
  import opened Protocol
  import opened RowLemmas

  predicate TokenOf(s: State, id: Id, r: Row) {
    r.token.Some? ==> r.token.value in s.issued && s.issued[r.token.value] == id
  }

  /** The first deadline of a row is at most the longest delivery age away. */
  predicate Dated(s: State, id: Id, r: Row) {
    r.deadline.Some? ==>
      && id in s.firstDue && s.firstDue[id] <= s.clock
      && r.deadline.value <= s.firstDue[id] + MAX_AGE
  }

  ghost predicate RowsOk(s: State) {
    && (forall id | id in s.db.rows :: RowOk(s.db.rows[id]))
    && (forall id | id in s.db.rows :: TokenOf(s, id, s.db.rows[id]))
    && (forall id | id in s.db.rows :: Dated(s, id, s.db.rows[id]))
  }

  ghost predicate EventIdsUnique(rows: Rows) {
    forall x, y | x in rows && y in rows && x != y :: rows[x].envelope.eventId != rows[y].envelope.eventId
  }

  ghost predicate TableOk(s: State) {
    && EventIdsUnique(s.db.rows)
    && (forall id | id in s.batched :: id in s.db.rows && !Leased(s.db.rows[id]))
    && (forall t | t in s.issued :: s.issued[t] in s.db.rows && Leased(s.db.rows[s.issued[t]]))
    && (forall t | t in s.unbound :: t in s.issued)
    && (forall id | id in s.firstDue :: id in s.db.rows && s.db.rows[id].deadline.Some?)
  }

  /** Every receipt names an acceptance of that recipient's key. */
  predicate Backed(accepted: set<Acceptance>, deliveryId: Id, receipts: Receipts) {
    forall i | i in receipts ::
      exists a | a in accepted :: a.sent.request.key == EmailKey(deliveryId, i) && a.receipt == receipts[i]
  }

  /** What a worker knows about the row it claimed, whether or not it still holds it. */
  predicate ClaimFits(c: Claim, r: Row) {
    && Leased(r)
    && c.attempts >= 1
    && (c.event.Some? ==> c.event.value == r.envelope)
    && Extends(r.receipts, c.receipts)
    && r.deadline.Some? && r.deadline.value <= c.deadline
    && (Holds(r, c.token) ==>
          r.receipts == c.receipts && r.attempts == c.attempts && r.retryBudget == c.retryBudget)
  }

  predicate Started(p: Phase) {
    !p.Preparing? && !p.Binding?
  }

  /** What the phase adds to that. */
  predicate PhaseFits(p: Phase, r: Row, accepted: set<Acceptance>) {
    match p
    case Preparing(c, _, _) => Holds(r, c.token) ==> r.deadline == Some(c.deadline)
    case Binding(c, d, _, _) =>
      && (Holds(r, c.token) ==> r.deadline == Some(c.deadline))
      && WellFormed(d.submission, r.envelope.eventId)
    case Bound(c, d, _, _) =>
      WellFormed(d.submission, r.envelope.eventId) && r.fingerprint == Some(d.submission.fingerprint)
    case Sending(c, d, _, _, next, receipts, waiting) =>
      && WellFormed(d.submission, r.envelope.eventId) && r.fingerprint == Some(d.submission.fingerprint)
      && next <= |d.submission.requests|
      && Extends(receipts, c.receipts)
      && (forall i | 0 <= i < next :: i in receipts)
      && (waiting ==> next !in receipts)
      && Backed(accepted, r.envelope.eventId, receipts)
    case Finishing(c, o, _) =>
      && (o.receipts == map[] || Extends(o.receipts, c.receipts))
      && Backed(accepted, r.envelope.eventId, o.receipts)
      && (o.kind == Accepted ==> FullyReceipted(r.(receipts := o.receipts)))
      && (o.kind == Unsure ==> r.fingerprint.Some?)
  }

  ghost predicate WorkerOk(s: State, p: Phase) {
    && p.claim.token in s.issued
    && p.claim.messageId == s.issued[p.claim.token]
    && p.claim.messageId in s.db.rows
    && ClaimFits(p.claim, s.db.rows[p.claim.messageId])
    && PhaseFits(p, s.db.rows[p.claim.messageId], s.accepted)
    && (p.claim.token in s.unbound <==> !Started(p))
  }

  ghost predicate WorkersOk(s: State) {
    && (forall w | w in s.workers :: WorkerOk(s, s.workers[w]))
    && (forall v, w | v in s.workers && w in s.workers && v != w ::
          s.workers[v].claim.token != s.workers[w].claim.token)
  }

  /** A request on the wire is one the bound fingerprint of its message commits to. */
  predicate SentFits(x: Sent, r: Row) {
    && Leased(r)
    && r.fingerprint.Some?
    && x.request.key.deliveryId == r.envelope.eventId
    && x.request.key.index < |Committed(r.fingerprint.value)|
    && x.request.body == Committed(r.fingerprint.value)[x.request.key.index]
  }

  ghost predicate WireOk(s: State) {
    forall x | x in s.wire ::
      && x.messageId in s.db.rows && SentFits(x, s.db.rows[x.messageId])
      && x.messageId in s.firstDue && s.firstDue[x.messageId] <= x.at <= s.clock
  }

  ghost predicate ProviderOk(s: State) {
    && (forall a | a in s.accepted :: a.sent in s.wire && a.sent.at <= a.at <= s.clock)
    && (forall a, b | a in s.accepted && b in s.accepted && a != b && a.sent.request.key == b.sent.request.key ::
          a.at + DAY <= b.at || b.at + DAY <= a.at)
  }

  ghost predicate ReceiptsOk(s: State) {
    forall id | id in s.db.rows :: Backed(s.accepted, s.db.rows[id].envelope.eventId, s.db.rows[id].receipts)
  }

  ghost predicate Inv(s: State) {
    RowsOk(s) && TableOk(s) && WorkersOk(s) && WireOk(s) && ProviderOk(s) && ReceiptsOk(s)
  }

  // ---- the effect of one step on the rows ------------------------------------------

  /**
   * A changed row is no longer held under any token issued before, except by the binder
   * itself; only a finish adds receipts and only a leased claim starts a leased attempt.
   */
  predicate Fenced(s: State, a: Action, r: Row, r': Row) {
    && (a.Finish? || r'.receipts == r.receipts)
    && (a.ClaimOne? || !Leased(r) || r'.attempts == r.attempts)
    && (|| r' == r
        || r'.status != Processing
        || r'.token.None?
        || r'.token.value !in s.issued
        || (a.Bind? && a.w in s.workers && r'.token.value == s.workers[a.w].claim.token))
  }

  ghost predicate RowsEvolve(s: State, a: Action, t: State) {
    && (forall id | id in s.db.rows :: id in t.db.rows)
    && (forall id | id in s.db.rows :: Evolves(s.db.rows[id], t.db.rows[id]))
    && (forall id | id in s.db.rows :: Fenced(s, a, s.db.rows[id], t.db.rows[id]))
    && (forall id | id in s.firstDue :: id in t.firstDue && t.firstDue[id] == s.firstDue[id])
    && (forall k | k in s.issued :: k in t.issued && t.issued[k] == s.issued[k])
    && s.clock <= t.clock
    && s.accepted <= t.accepted
    && s.wire <= t.wire
  }

  lemma EvolvesReflexive(r: Row)
    ensures Evolves(r, r)
  {
  }

  /** A claim step, row by row. */
  ghost predicate ClaimEffect(s: State, a: Action, t: State, claim: Option<Claim>)
    requires a.ClaimOne?
  {
    && t.db.rows.Keys == s.db.rows.Keys
    && t.clock == s.clock && t.wire == s.wire && t.accepted == s.accepted && t.batched == s.batched
    && t.firstDue == FirstDue(s.firstDue, s.db.rows, t.db.rows, a.now)
    && (forall id | id in s.db.rows ::
          if claim.Some? && id == claim.value.messageId
          then HandedOut(id, s.db.rows[id], t.db.rows[id], claim.value, LEASED_TYPES, a.now, a.settings, a.token)
          else SetAside(s.db.rows[id], t.db.rows[id], LEASED_TYPES, a.now, a.settings))
    && match claim
       case None => t.workers == s.workers && t.issued == s.issued && t.unbound == s.unbound
       case Some(c) =>
         var phase := AfterClaim(c, a.settings, s.clock);
         && c.messageId in s.db.rows
         && t.workers == s.workers[a.w := phase]
         && t.issued == s.issued[a.token := c.messageId]
         && t.unbound == (if phase.Preparing? then s.unbound + {a.token} else s.unbound)
  }

  lemma ClaimHasEffect(s: State, a: Action, t: State) returns (claim: Option<Claim>)
    requires a.ClaimOne? && Next(s, a, t)
    ensures ClaimEffect(s, a, t, claim)
  {
    var (db, c) := ClaimTx(s.db, GROUP, LEASED_TYPES, a.now, a.settings, a.busySweep, a.busyPick, a.token);
    ClaimRowsMeaning(s.db.rows, LEASED_TYPES, a.now, a.settings, a.busySweep, a.busyPick, a.token);
    claim := c;
  }

  lemma HandedOutRowStep(s: State, a: Action, t: State, c: Claim, r: Row, r': Row)
    requires a.ClaimOne? && a.now <= s.clock <= t.clock && a.settings.Valid() && a.token !in s.issued
    requires t.issued == s.issued[a.token := c.messageId]
    requires r'.deadline.Some? && r.deadline.None? ==> c.messageId in t.firstDue && t.firstDue[c.messageId] == a.now
    requires r.deadline.Some? && c.messageId in s.firstDue ==>
               c.messageId in t.firstDue && t.firstDue[c.messageId] == s.firstDue[c.messageId]
    requires HandedOut(c.messageId, r, r', c, LEASED_TYPES, a.now, a.settings, a.token)
    requires RowOk(r) && TokenOf(s, c.messageId, r) && Dated(s, c.messageId, r)
    ensures RowOk(r') && TokenOf(t, c.messageId, r') && Dated(t, c.messageId, r')
    ensures Evolves(r, r') && Fenced(s, a, r, r')
  {
    HandedOutEvolves(c.messageId, r, r', c, a.now, a.settings, a.token);
    hide RowOk;
  }

  lemma SetAsideRowStep(s: State, a: Action, t: State, id: Id, r: Row, r': Row)
    requires a.ClaimOne? && a.now <= s.clock <= t.clock && a.settings.Valid()
    requires forall k | k in s.issued && k != a.token :: k in t.issued && t.issued[k] == s.issued[k]
    requires a.token !in s.issued
    requires r'.deadline.Some? && r.deadline.None? ==> id in t.firstDue && t.firstDue[id] == a.now
    requires r.deadline.Some? && id in s.firstDue ==> id in t.firstDue && t.firstDue[id] == s.firstDue[id]
    requires SetAside(r, r', LEASED_TYPES, a.now, a.settings)
    requires RowOk(r) && TokenOf(s, id, r) && Dated(s, id, r)
    ensures RowOk(r') && TokenOf(t, id, r') && Dated(t, id, r')
    ensures Evolves(r, r') && Fenced(s, a, r, r')
  {
    SetAsideEvolves(r, r', a.now, a.settings);
    hide RowOk;
  }

  lemma ClaimRowStep(s: State, a: Action, t: State, claim: Option<Claim>, id: Id)
    requires a.ClaimOne? && a.now <= s.clock && a.settings.Valid() && a.token !in s.issued
    requires ClaimEffect(s, a, t, claim)
    requires id in s.db.rows && RowOk(s.db.rows[id]) && TokenOf(s, id, s.db.rows[id]) && Dated(s, id, s.db.rows[id])
    ensures RowOk(t.db.rows[id]) && TokenOf(t, id, t.db.rows[id]) && Dated(t, id, t.db.rows[id])
    ensures Evolves(s.db.rows[id], t.db.rows[id]) && Fenced(s, a, s.db.rows[id], t.db.rows[id])
  {
    hide RowOk, TokenOf, Dated, Evolves, Fenced, HandedOut, SetAside, AfterClaim;
    if claim.Some? && id == claim.value.messageId {
      HandedOutRowStep(s, a, t, claim.value, s.db.rows[id], t.db.rows[id]);
    } else {
      SetAsideRowStep(s, a, t, id, s.db.rows[id], t.db.rows[id]);
    }
  }

  // ---- every other step on the rows ------------------------------------------------

  /** A permitted change of one row by a step other than a claim. */
  predicate Permitted(s: State, a: Action, r: Row, r': Row) {
    && RowOk(r') && Evolves(r, r') && Fenced(s, a, r, r')
    && (r'.token.Some? ==> r'.token == r.token)
    && (r'.deadline.Some? ==> r.deadline.Some?)
  }

  /** History other than the claim log, and time, only grow. */
  predicate HistoryGrows(s: State, t: State) {
    && t.issued == s.issued && t.firstDue == s.firstDue
    && s.clock <= t.clock && s.accepted <= t.accepted && s.wire <= t.wire
  }

  lemma PermittedRow(s: State, a: Action, t: State, id: Id, r: Row, r': Row)
    requires TokenOf(s, id, r) && Dated(s, id, r) && HistoryGrows(s, t) && Permitted(s, a, r, r')
    ensures RowOk(r') && TokenOf(t, id, r') && Dated(t, id, r') && Evolves(r, r') && Fenced(s, a, r, r')
  {
    hide RowOk, Fenced;
  }

  lemma PermittedStep(s: State, a: Action, t: State)
    requires RowsOk(s) && HistoryGrows(s, t)
    requires t.db.rows.Keys == s.db.rows.Keys
    requires forall id | id in s.db.rows :: Permitted(s, a, s.db.rows[id], t.db.rows[id])
    ensures RowsEvolve(s, a, t) && RowsOk(t)
  {
    hide RowOk, TokenOf, Dated, Evolves, Fenced, Permitted;
    forall id | id in s.db.rows
      ensures RowOk(t.db.rows[id]) && TokenOf(t, id, t.db.rows[id]) && Dated(t, id, t.db.rows[id])
      ensures Evolves(s.db.rows[id], t.db.rows[id]) && Fenced(s, a, s.db.rows[id], t.db.rows[id])
    {
      PermittedRow(s, a, t, id, s.db.rows[id], t.db.rows[id]);
    }
  }

  lemma StutterPermitted(s: State, a: Action, r: Row)
    requires RowOk(r)
    ensures Permitted(s, a, r, r)
  {
  }

  lemma SameRowsStep(s: State, a: Action, t: State)
    requires RowsOk(s) && HistoryGrows(s, t) && t.db.rows == s.db.rows
    ensures RowsEvolve(s, a, t) && RowsOk(t)
  {
    hide RowOk, Permitted, RowsEvolve;
    forall id | id in s.db.rows ensures Permitted(s, a, s.db.rows[id], t.db.rows[id]) {
      StutterPermitted(s, a, s.db.rows[id]);
    }
    PermittedStep(s, a, t);
  }

  lemma OneRowStep(s: State, a: Action, t: State, id: Id)
    requires RowsOk(s) && HistoryGrows(s, t)
    requires id in s.db.rows && id in t.db.rows && t.db.rows == s.db.rows[id := t.db.rows[id]]
    requires Permitted(s, a, s.db.rows[id], t.db.rows[id])
    ensures RowsEvolve(s, a, t) && RowsOk(t)
  {
    hide RowOk, Permitted, RowsEvolve;
    forall x | x in s.db.rows ensures Permitted(s, a, s.db.rows[x], t.db.rows[x]) {
      if x != id {
        StutterPermitted(s, a, s.db.rows[x]);
      }
    }
    PermittedStep(s, a, t);
  }

  /** A fenced step of worker w either leaves the rows alone or rewrites the claimed row. */
  predicate FencedEffect(s: State, t: State, p: Phase, ownedAt: Time, r': Row) {
    && HistoryGrows(s, t)
    && (if Owned(s.db.rows, p.claim, ownedAt) then t.db.rows == s.db.rows[p.claim.messageId := r']
        else t.db.rows == s.db.rows)
  }

  function RowAfterBind(s: State, p: Phase, now: Time): Row
    requires p.Binding? && p.claim.messageId in s.db.rows
  {
    BoundRow(s.db.rows[p.claim.messageId], p.claim, p.delivery.submission.fingerprint, p.delivery.expiresAt, now)
  }

  function RowAfterFinish(s: State, p: Phase, now: Time, jitter: Time): Row
    requires p.Finishing? && p.claim.attempts >= 1 && p.claim.messageId in s.db.rows
  {
    FinishedRow(s.db.rows[p.claim.messageId], p.claim, p.outcome, NextDelay(p.claim.attempts, p.outcome, jitter).value,
                now)
  }

  lemma BindHasEffect(s: State, a: Action, t: State)
    requires a.Bind? && Next(s, a, t)
    ensures a.w in s.workers && s.workers[a.w].Binding?
    ensures s.workers[a.w].claim.messageId in s.db.rows ==>
              FencedEffect(s, t, s.workers[a.w], a.ownedAt, RowAfterBind(s, s.workers[a.w], a.now))
    ensures s.workers[a.w].claim.messageId !in s.db.rows ==> t.db.rows == s.db.rows
  {
  }

  lemma FinishHasEffect(s: State, a: Action, t: State)
    requires a.Finish? && Next(s, a, t)
    ensures a.w in s.workers && s.workers[a.w].Finishing? && s.workers[a.w].claim.attempts >= 1
    ensures s.workers[a.w].claim.messageId in s.db.rows ==>
              FencedEffect(s, t, s.workers[a.w], a.ownedAt, RowAfterFinish(s, s.workers[a.w], a.now, a.jitter))
  {
  }

  lemma BindPermitted(s: State, a: Action, p: Phase, r: Row)
    requires a.Bind? && a.w in s.workers && s.workers[a.w] == p && p.Binding? && p.claim.token in s.issued
    requires RowOk(r) && ClaimFits(p.claim, r) && PhaseFits(p, r, s.accepted) && Holds(r, p.claim.token)
    ensures Permitted(s, a, r, BoundRow(r, p.claim, p.delivery.submission.fingerprint, p.delivery.expiresAt, a.now))
  {
    BindEvolves(r, p.claim, p.delivery.submission.fingerprint, p.delivery.expiresAt, a.now);
    hide RowOk, Evolves;
  }

  lemma FinishPermitted(s: State, a: Action, p: Phase, r: Row, delay: Time)
    requires a.Finish? && p.Finishing?
    requires RowOk(r) && ClaimFits(p.claim, r) && PhaseFits(p, r, s.accepted) && Holds(r, p.claim.token)
    ensures Permitted(s, a, r, FinishedRow(r, p.claim, p.outcome, delay, a.now))
  {
    FinishEvolves(r, p.claim, p.outcome, delay, a.now);
    hide RowOk, Evolves, Backed;
  }

  lemma BindRowsStep(s: State, a: Action, t: State)
    requires RowsOk(s) && WorkersOk(s) && a.Bind? && Next(s, a, t)
    ensures RowsEvolve(s, a, t) && RowsOk(t)
  {
    hide Next, RowOk, ClaimFits, PhaseFits, RowsEvolve, Permitted;
    BindHasEffect(s, a, t);
    var p := s.workers[a.w];
    assert WorkerOk(s, p);
    if Owned(s.db.rows, p.claim, a.ownedAt) {
      BindPermitted(s, a, p, s.db.rows[p.claim.messageId]);
      OneRowStep(s, a, t, p.claim.messageId);
    } else {
      SameRowsStep(s, a, t);
    }
  }

  lemma FinishRowsStep(s: State, a: Action, t: State)
    requires RowsOk(s) && WorkersOk(s) && a.Finish? && Next(s, a, t)
    ensures RowsEvolve(s, a, t) && RowsOk(t)
  {
    hide Next, RowOk, ClaimFits, PhaseFits, RowsEvolve, Permitted;
    FinishHasEffect(s, a, t);
    var p := s.workers[a.w];
    assert WorkerOk(s, p);
    if Owned(s.db.rows, p.claim, a.ownedAt) {
      FinishPermitted(s, a, p, s.db.rows[p.claim.messageId],
                      NextDelay(p.claim.attempts, p.outcome, a.jitter).value);
      OneRowStep(s, a, t, p.claim.messageId);
    } else {
      SameRowsStep(s, a, t);
    }
  }

  lemma ReplayHasEffect(s: State, a: Action, t: State)
    requires a.Replay? && Next(s, a, t)
    ensures Replayable(s.db.rows, a.id, LEASED_TYPES, a.prepared, s.clock)
    ensures HistoryGrows(s, t) && t.db.rows == s.db.rows[a.id := ReplayedRow(s.db.rows[a.id], s.clock)]
  {
  }

  lemma ReplayRowsStep(s: State, a: Action, t: State)
    requires RowsOk(s) && a.Replay? && Next(s, a, t)
    ensures RowsEvolve(s, a, t) && RowsOk(t)
  {
    hide Next, RowsEvolve;
    ReplayHasEffect(s, a, t);
    assert RowOk(s.db.rows[a.id]);
    ReplayEvolves(s.db.rows, a.id, a.prepared, s.clock);
    hide RowOk, Evolves;
    OneRowStep(s, a, t, a.id);
  }

  /** What an ordinary step can do to a row it touches. */
  predicate OrdinaryChange(r: Row, r': Row, now: Time, at: Time, code: string) {
    || (Waiting(r) && r.attempts < 100 && r' == OrdinaryTaken(r, now))
    || (r.status == Processing
        && r' == r.(status := Published, claimedAt := None, publishedAt := Some(at), errorCode := None))
    || (r.status == Processing
        && r' == r.(status := Failed, claimedAt := None, publishedAt := None, errorCode := Some(code),
                    availableAt := at))
    || (r.status == Processing && r' == Released(r, at))
  }

  predicate Ordinary(a: Action) {
    a.OrdinaryClaim? || a.OrdinaryPublish? || a.OrdinaryFail? || a.OrdinaryRecover?
  }

  ghost predicate OrdinaryEffect(s: State, t: State) {
    && HistoryGrows(s, t) && t.db.rows.Keys == s.db.rows.Keys
    && forall id | id in s.db.rows ::
      || t.db.rows[id] == s.db.rows[id]
      || ((Leased(s.db.rows[id]) ==> s.db.rows[id].token.None? && s.db.rows[id].status == Processing)
          && exists now, at, code :: OrdinaryChange(s.db.rows[id], t.db.rows[id], now, at, code))
  }

  lemma OrdinaryClaimIsBatch(s: State, a: Action, t: State)
    requires a.OrdinaryClaim? && Next(s, a, t)
    ensures HistoryGrows(s, t) && t.unbound == s.unbound && 1 <= a.maxAttempts <= 100 && 1 <= a.limit <= 100
    ensures var batch := Batch(s.db.rows, a.types, a.maxAttempts, a.limit, a.now, a.busy);
            && t.db.rows == BatchTx(s.db.rows, batch, a.now)
            && t.batched == s.batched + set id | id in batch
  {
    hide Batch, BatchTx;
  }

  lemma OrdinaryClaimHasEffect(s: State, a: Action, t: State)
    requires a.OrdinaryClaim? && Next(s, a, t)
    ensures OrdinaryEffect(s, t)
  {
    hide Next, Batch, OrdinaryOvertaking;
    OrdinaryClaimIsBatch(s, a, t);
    var batch := Batch(s.db.rows, a.types, a.maxAttempts, a.limit, a.now, a.busy);
    forall id | id in s.db.rows && id in batch
      ensures !Leased(s.db.rows[id]) && OrdinaryChange(s.db.rows[id], t.db.rows[id], a.now, a.now, "")
    {
      assert OrdinaryClaimable(s.db.rows, s.db.rows[id], a.types, a.maxAttempts, a.now);
    }
  }

  lemma OrdinaryMarkHasEffect(s: State, a: Action, t: State)
    requires (a.OrdinaryPublish? || a.OrdinaryFail?) && Next(s, a, t)
    requires forall id | id in s.batched :: id in s.db.rows && !Leased(s.db.rows[id])
    ensures OrdinaryEffect(s, t)
  {
    var r, r' := s.db.rows[a.id], t.db.rows[a.id];
    if a.OrdinaryPublish? {
      assert r' == r || OrdinaryChange(r, r', 0, a.at, "");
    } else {
      assert r' == r || OrdinaryChange(r, r', 0, a.availableAt, a.code);
    }
  }

  lemma OrdinaryRecoverHasEffect(s: State, a: Action, t: State)
    requires a.OrdinaryRecover? && Next(s, a, t)
    ensures OrdinaryEffect(s, t)
  {
    forall id | id in s.db.rows && id in a.stale
      ensures s.db.rows[id].token.None? && s.db.rows[id].status == Processing
      ensures OrdinaryChange(s.db.rows[id], t.db.rows[id], 0, a.availableAt, "")
    {
      assert Stale(s.db.rows[id], a.staleBefore);
    }
  }

  lemma OrdinaryPermitted(s: State, a: Action, r: Row, r': Row)
    requires RowOk(r)
    requires Leased(r) ==> r.token.None? && r.status == Processing
    requires exists now, at, code :: OrdinaryChange(r, r', now, at, code)
    ensures Permitted(s, a, r, r')
  {
    var now, at, code :| OrdinaryChange(r, r', now, at, code);
    OrdinaryEvolves(r, r', now, at, code);
  }

  lemma OrdinaryRowsStep(s: State, a: Action, t: State)
    requires RowsOk(s) && TableOk(s) && Ordinary(a) && Next(s, a, t)
    ensures RowsEvolve(s, a, t) && RowsOk(t)
  {
    hide Next, RowOk, Permitted, RowsEvolve, OrdinaryChange, Leased;
    if a.OrdinaryClaim? {
      OrdinaryClaimHasEffect(s, a, t);
    } else if a.OrdinaryRecover? {
      OrdinaryRecoverHasEffect(s, a, t);
    } else {
      OrdinaryMarkHasEffect(s, a, t);
    }
    forall id | id in s.db.rows ensures Permitted(s, a, s.db.rows[id], t.db.rows[id]) {
      if t.db.rows[id] == s.db.rows[id] {
        StutterPermitted(s, a, s.db.rows[id]);
      } else {
        OrdinaryPermitted(s, a, s.db.rows[id], t.db.rows[id]);
      }
    }
    PermittedStep(s, a, t);
  }

  lemma NewRowIsOk(envelope: Envelope, availableAt: Time)
    ensures RowOk(NewRow(envelope, availableAt))
  {
  }

  lemma AddRowsStep(s: State, a: Action, t: State)
    requires RowsOk(s) && a.Add? && Next(s, a, t)
    ensures RowsEvolve(s, a, t) && RowsOk(t)
  {
    assert t == WithRows(s, s.db.rows[a.id := NewRow(a.envelope, a.availableAt)]) && a.id !in s.db.rows;
    hide *;
    AddedRow(s, a, t);
  }

  lemma AddedRow(s: State, a: Action, t: State)
    requires RowsOk(s) && a.Add? && a.id !in s.db.rows
    requires t == WithRows(s, s.db.rows[a.id := NewRow(a.envelope, a.availableAt)])
    ensures RowsEvolve(s, a, t) && RowsOk(t)
  {
    hide RowOk, Evolves;
    NewRowIsOk(a.envelope, a.availableAt);
    forall id | id in s.db.rows ensures Evolves(s.db.rows[id], t.db.rows[id]) {
      EvolvesReflexive(s.db.rows[id]);
    }
    forall id | id in t.db.rows ensures TokenOf(t, id, t.db.rows[id]) && Dated(t, id, t.db.rows[id]) {
      if id != a.id {
        assert TokenOf(s, id, s.db.rows[id]) && Dated(s, id, s.db.rows[id]);
      }
    }
  }

  lemma FirstDueGrows(firstDue: map<Id, Time>, before: Rows, after: Rows, now: Time)
    requires forall id | id in firstDue :: id in before && before[id].deadline.Some?
    ensures forall id | id in firstDue ::
              id in FirstDue(firstDue, before, after, now) && FirstDue(firstDue, before, after, now)[id] == firstDue[id]
  {
  }

  lemma ClaimHistory(s: State, a: Action, t: State, claim: Option<Claim>)
    requires TableOk(s) && a.ClaimOne? && Enabled(s, a) && ClaimEffect(s, a, t, claim)
    ensures forall id | id in s.firstDue :: id in t.firstDue && t.firstDue[id] == s.firstDue[id]
    ensures forall k | k in s.issued :: k in t.issued && t.issued[k] == s.issued[k]
  {
    FirstDueGrows(s.firstDue, s.db.rows, t.db.rows, a.now);
  }

  lemma ClaimRowsStep(s: State, a: Action, t: State)
    requires RowsOk(s) && TableOk(s) && a.ClaimOne? && Next(s, a, t)
    ensures RowsEvolve(s, a, t) && RowsOk(t)
  {
    var claim := ClaimHasEffect(s, a, t);
    ClaimHistory(s, a, t, claim);
    forall id | id in s.db.rows
      ensures RowOk(t.db.rows[id]) && TokenOf(t, id, t.db.rows[id]) && Dated(t, id, t.db.rows[id])
      ensures Evolves(s.db.rows[id], t.db.rows[id]) && Fenced(s, a, s.db.rows[id], t.db.rows[id])
    {
      assert RowOk(s.db.rows[id]) && TokenOf(s, id, s.db.rows[id]) && Dated(s, id, s.db.rows[id]);
      ClaimRowStep(s, a, t, claim, id);
    }
  }

  /** Steps that leave every row alone. */
  predicate Quiet(a: Action) {
    || a.Tick? || a.Prepared? || a.NotPrepared? || a.Ineligible? || a.StartSend? || a.SkipCompleted? || a.Transmit?
    || a.Process? || a.Respond? || a.Complete? || a.Abort? || a.Crash? || a.Resume?
  }

  lemma QuietStep(s: State, a: Action, t: State)
    requires Quiet(a) && Next(s, a, t)
    ensures HistoryGrows(s, t) && t.db.rows == s.db.rows
    ensures t.batched == s.batched
  {
  }

  lemma QuietRowsStep(s: State, a: Action, t: State)
    requires RowsOk(s) && Quiet(a) && Next(s, a, t)
    ensures RowsEvolve(s, a, t) && RowsOk(t)
  {
    QuietStep(s, a, t);
    SameRowsStep(s, a, t);
  }

  /** Rows, in every step. */
  lemma RowsStep(s: State, a: Action, t: State)
    requires RowsOk(s) && TableOk(s) && WorkersOk(s) && Next(s, a, t)
    ensures RowsEvolve(s, a, t) && RowsOk(t)
  {
    assert a.Add? || a.ClaimOne? || a.Bind? || a.Finish? || a.Replay? || Ordinary(a) || Quiet(a);
    hide *;
    if a.Add? {
      AddRowsStep(s, a, t);
    } else if a.ClaimOne? {
      ClaimRowsStep(s, a, t);
    } else if a.Bind? {
      BindRowsStep(s, a, t);
    } else if a.Finish? {
      FinishRowsStep(s, a, t);
    } else if a.Replay? {
      ReplayRowsStep(s, a, t);
    } else if Ordinary(a) {
      OrdinaryRowsStep(s, a, t);
    } else {
      QuietRowsStep(s, a, t);
    }
  }
}
