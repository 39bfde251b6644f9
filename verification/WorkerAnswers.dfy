/** How a pass of the worker ends, for each thing that can happen in it. */
module WorkerAnswers {
  import opened Basics
  import opened OutboxModel
  import Tx = OutboxTransactions
  import A = OutboxAnswers
  import opened Sender
  import opened Worker

  /** The pass ended by finishing its claim with this outcome, after a delay that outcome allows. */
  ghost predicate Finishes(before: Db, after: Db, group: string, claim: Claim, outcome: Outcome, world: World) {
    exists delay | delay >= SECOND && delay >= outcome.retryAfter * SECOND ::
      after == Tx.FinishTx(before, group, claim, outcome, delay, world.finishOwnedAt, world.finishedAt).0
  }

  /** A finish that nobody else got in the way of: the row ends as the outcome says, and Block alone stops the group. */
  ghost predicate EndsClaim(before: Db, after: Db, group: string, claim: Claim, kind: Kind, code: string, world: World)
  {
    if !A.Fences(before.rows, claim, world.finishOwnedAt) then after == before
    else
      && A.OnlyRow(before.rows, after.rows, claim.messageId)
      && var r, r' := before.rows[claim.messageId], after.rows[claim.messageId];
      && r'.errorCode == Some(code) && r'.token.None? && r'.availableAt >= world.finishedAt + SECOND
      && A.EndsAs(r'.status, kind, r,
                  r'.availableAt >= if r.deadline.Some? then r.deadline.value else claim.deadline)
      && if kind == Block then A.Stops(before.controls, after.controls, group) else after.controls == before.controls
  }

  lemma FinishesEnds(before: Db, after: Db, group: string, claim: Claim, outcome: Outcome, world: World)
    requires Finishes(before, after, group, claim, outcome, world)
    ensures EndsClaim(before, after, group, claim, outcome.kind, outcome.code, world)
  {
    var delay :| && delay >= SECOND && delay >= outcome.retryAfter * SECOND
                 && after == Tx.FinishTx(before, group, claim, outcome, delay, world.finishOwnedAt, world.finishedAt).0;
    A.FinishAnswers(before, group, claim, outcome, delay, world.finishOwnedAt, world.finishedAt);
    hide Tx.FinishTx, A.Merged, A.EndsAs, A.Stops;
  }

  lemma FinalizedFinishes(db: Db, group: string, claim: Claim, outcome: Outcome, world: World)
    requires claim.attempts >= 1
    ensures Finishes(db, Finalized(db, group, claim, outcome, world), group, claim, outcome, world)
    ensures EndsClaim(db, Finalized(db, group, claim, outcome, world), group, claim, outcome.kind, outcome.code, world)
  {
    var delay := NextDelay(claim.attempts, outcome, world.jitter).value;
    assert delay >= SECOND && delay >= outcome.retryAfter * SECOND;
    hide Tx.FinishTx, NextDelay;
    FinishesEnds(db, Finalized(db, group, claim, outcome, world), group, claim, outcome, world);
  }

  /** What a pass that got no allowed bind does with its claim: it sends nothing. */
  ghost predicate EndsUnsent(db: Db, after: Db, group: string, claim: Claim, world: World) {
    if claim.event.None? then EndsClaim(db, after, group, claim, Permanent, "invalid_event", world)
    else if world.prepare.PrepareTimeout? then EndsClaim(db, after, group, claim, Retry, "preparation_timeout", world)
    else
      && world.prepare.Declined?
      && EndsClaim(db, after, group, claim, world.prepare.outcome.kind, world.prepare.outcome.code, world)
  }

  /** What it does once its bind was allowed, on the tables the bind left. */
  ghost predicate EndsBound(db: Db, after: Db, group: string, claim: Claim, sent: seq<nat>, world: World)
    requires world.prepare.Ready?
  {
    if world.checkedAt >= claim.deadline || world.checkedAt >= world.prepare.delivery.expiresAt then
      sent == [] && EndsClaim(db, after, group, claim, Skip, "no_longer_eligible", world)
    else match world.deliver
      case Interrupted(_, _, failed) =>
        && (forall i :: i in sent <==> 0 <= i < world.Reach() && i !in claim.receipts)
        && (if failed then EndsClaim(db, after, group, claim, Block, "handler_failure", world)
            else EndsClaim(db, after, group, claim, Unsure, "submission_timeout", world))
      case Answered(_) =>
        var (outcome, submitted) := PassResult(claim.receipts, world.Verdicts());
        sent == submitted && EndsClaim(db, after, group, claim, outcome.kind, outcome.code, world)
  }

  lemma SubmitAnswers(db: Db, group: string, claim: Claim, world: World)
    requires claim.attempts >= 1 && world.prepare.Ready?
    ensures var d := world.prepare.delivery;
            var (after, sent) := Submit(db, group, claim, d, world);
            var (bound, allowed) := Tx.BindTx(db, group, claim, d.submission.fingerprint, d.expiresAt,
                                              world.bindOwnedAt, world.boundAt);
            if !allowed then after == bound && sent == []
            else EndsBound(bound, after, group, claim, sent, world)
  {
    var d := world.prepare.delivery;
    var (bound, allowed) := Tx.BindTx(db, group, claim, d.submission.fingerprint, d.expiresAt, world.bindOwnedAt,
                                      world.boundAt);
    SubmittedHolds(claim.receipts, world.Reach());
    hide Tx.BindTx, PassResult, EndsClaim, Finalized, Submitted;
    FinalizedFinishes(bound, group, claim, Plain(Skip, "no_longer_eligible"), world);
    FinalizedFinishes(bound, group, claim, Delivered(claim, world).0, world);
  }

  /**
   * A pass without a claim changes nothing more; otherwise an event that cannot be decoded is
   * given up, a preparation that ran out of time is tried again without stopping the group,
   * a refusal ends as the handler said, a refused bind ends the pass, and a delivery ends
   * with the outcome of its sender, unless it came too late, timed out or failed.
   */
  lemma PassAnswers(db: Db, group: string, types: set<string>, settings: Settings, world: World)
    ensures var (after, handled, sent) := PassTx(db, group, types, settings, world);
            var (claimed, claim) := Tx.ClaimTx(db, group, types, world.claimedAt, settings, world.busySweep,
                                               world.busyPick, world.token);
            && handled == claim.Some?
            && match claim
               case None => after == claimed && sent == []
               case Some(c) =>
                 if c.event.None? || !world.prepare.Ready? then
                   sent == [] && EndsUnsent(claimed, after, group, c, world)
                 else
                   var d := world.prepare.delivery;
                   var (bound, allowed) := Tx.BindTx(claimed, group, c, d.submission.fingerprint, d.expiresAt,
                                                     world.bindOwnedAt, world.boundAt);
                   if !allowed then after == bound && sent == []
                   else EndsBound(bound, after, group, c, sent, world)
  {
    hide Tx.ClaimTx, Tx.BindTx, Finalized, EndsClaim, EndsBound, Submit;
    ClaimsHaveAttempts(db, group, types, settings, world);
    var (claimed, claim) := Tx.ClaimTx(db, group, types, world.claimedAt, settings, world.busySweep, world.busyPick,
                                       world.token);
    if claim.Some? {
      var c := claim.value;
      FinalizedFinishes(claimed, group, c, Plain(Permanent, "invalid_event"), world);
      FinalizedFinishes(claimed, group, c, Plain(Retry, "preparation_timeout"), world);
      if world.prepare.Declined? {
        FinalizedFinishes(claimed, group, c, world.prepare.outcome, world);
      }
      if world.prepare.Ready? {
        SubmitAnswers(claimed, group, c, world);
      }
    }
  }
}
