/** Every step preserves the invariant. */
module Preservation {
  import opened Basics
  import opened Canonical
  import opened OutboxModel
  import opened OutboxTransactions
  import opened Sender
  import opened Protocol
  import opened RowLemmas
  import opened Invariant

  // ---- workers ---------------------------------------------------------------------

  function Actor(a: Action): Option<Worker> {
    match a
    case ClaimOne(w, _, _, _, _, _) => Some(w)
    case Prepared(w, _) => Some(w)
    case NotPrepared(w, _) => Some(w)
    case Bind(w, _, _) => Some(w)
    case Ineligible(w) => Some(w)
    case StartSend(w) => Some(w)
    case SkipCompleted(w) => Some(w)
    case Transmit(w) => Some(w)
    case Respond(w, _) => Some(w)
    case Complete(w) => Some(w)
    case Abort(w, _) => Some(w)
    case Finish(w, _, _, _) => Some(w)
    case Crash(w) => Some(w)
    case _ => None
  }

  /** A step moves at most its own worker and settles at most its own token. */
  ghost predicate WorkersFrame(s: State, a: Action, t: State) {
    && (forall v | v in t.workers && Actor(a) != Some(v) :: v in s.workers && t.workers[v] == s.workers[v])
    && (|| t.unbound == s.unbound
        || (a.ClaimOne? && a.token !in s.issued && t.unbound == s.unbound + {a.token})
        || (Actor(a).Some? && Actor(a).value in s.workers
            && t.unbound == s.unbound - {s.workers[Actor(a).value].claim.token}))
  }

  lemma FrameStep(s: State, a: Action, t: State)
    requires Next(s, a, t)
    ensures WorkersFrame(s, a, t)
  {
    hide Batch, ClaimTx, BindTx, FinishTx;
  }

  lemma ClaimStillFits(s: State, a: Action, c: Claim, r: Row, r': Row)
    requires ClaimFits(c, r) && Evolves(r, r') && Fenced(s, a, r, r')
    requires c.token in s.issued
    requires a.Bind? ==> a.w in s.workers && s.workers[a.w].claim.token != c.token
    ensures ClaimFits(c, r')
    ensures Holds(r', c.token) ==> r' == r
  {
  }

  lemma BackedGrows(accepted: set<Acceptance>, more: set<Acceptance>, deliveryId: Id, receipts: Receipts)
    requires Backed(accepted, deliveryId, receipts) && accepted <= more
    ensures Backed(more, deliveryId, receipts)
  {
    forall i | i in receipts
      ensures exists a | a in more :: a.sent.request.key == EmailKey(deliveryId, i) && a.receipt == receipts[i]
    {
      var a :| a in accepted && a.sent.request.key == EmailKey(deliveryId, i) && a.receipt == receipts[i];
      assert a in more;
    }
  }

  lemma PhaseStillFits(p: Phase, r: Row, r': Row, accepted: set<Acceptance>, more: set<Acceptance>)
    requires PhaseFits(p, r, accepted) && Evolves(r, r') && accepted <= more
    requires Holds(r', p.claim.token) ==> r' == r
    ensures PhaseFits(p, r', more)
  {
    if p.Sending? {
      BackedGrows(accepted, more, r.envelope.eventId, p.receipts);
    } else if p.Finishing? {
      BackedGrows(accepted, more, r.envelope.eventId, p.outcome.receipts);
    }
  }

  lemma RowsEvolveAt(s: State, a: Action, t: State, id: Id)
    requires RowsEvolve(s, a, t) && id in s.db.rows
    ensures id in t.db.rows && Evolves(s.db.rows[id], t.db.rows[id]) && Fenced(s, a, s.db.rows[id], t.db.rows[id])
    ensures forall k | k in s.issued :: k in t.issued && t.issued[k] == s.issued[k]
    ensures s.accepted <= t.accepted
  {
    hide Evolves, Fenced;
  }

  /** A worker that does not move keeps its facts, whatever happens around it. */
  lemma IdleWorkerStep(s: State, a: Action, t: State, v: Worker)
    requires WorkersOk(s) && RowsEvolve(s, a, t) && WorkersFrame(s, a, t)
    requires v in t.workers && Actor(a) != Some(v)
    requires a.Bind? ==> a.w in s.workers
    ensures WorkerOk(t, t.workers[v])
  {
    hide ClaimFits, PhaseFits, Evolves, Fenced, RowsEvolve;
    var p := s.workers[v];
    assert WorkerOk(s, p) && t.workers[v] == p;
    var r := s.db.rows[p.claim.messageId];
    if Actor(a).Some? && Actor(a).value in s.workers {
      assert s.workers[Actor(a).value].claim.token != p.claim.token;
    }
    assert p.claim.token in t.unbound <==> p.claim.token in s.unbound;
    hide WorkersOk, WorkersFrame;
    RowsEvolveAt(s, a, t, p.claim.messageId);
    ClaimStillFits(s, a, p.claim, r, t.db.rows[p.claim.messageId]);
    PhaseStillFits(p, r, t.db.rows[p.claim.messageId], s.accepted, t.accepted);
  }

  // ---- the worker that moves -------------------------------------------------------

  lemma DeliveryCommits(submission: Submission, deliveryId: Id)
    requires WellFormed(submission, deliveryId)
    ensures Committed(submission.fingerprint) == Bodies(submission.requests)
  {
    ParseOfEncode(Bodies(submission.requests));
  }

  lemma ClaimerStep(s: State, a: Action, t: State, claim: Option<Claim>)
    requires a.ClaimOne? && a.token !in s.issued && ClaimEffect(s, a, t, claim)
    requires forall k | k in s.unbound :: k in s.issued
    requires a.w in t.workers && a.w !in s.workers
    ensures WorkerOk(t, t.workers[a.w]) && t.workers[a.w].claim.token == a.token
  {
    var c := claim.value;
    var r, r' := s.db.rows[c.messageId], t.db.rows[c.messageId];
    assert HandedOut(c.messageId, r, r', c, LEASED_TYPES, a.now, a.settings, a.token);
  }

  /** The steps of a worker between its transactions. */
  predicate Local(a: Action) {
    || a.Prepared? || a.NotPrepared? || a.Ineligible? || a.StartSend? || a.SkipCompleted? || a.Transmit? || a.Respond?
    || a.Complete? || a.Abort?
  }

  /** The phase a local step moves to. */
  function LocalPhase(s: State, a: Action, p: Phase): Phase
    requires Local(a) && Enabled(s, a) && p == s.workers[a.w]
  {
    match a
    case Prepared(_, delivery) => Binding(p.claim, delivery, p.settings, s.clock + UNIT_OF_WORK + HANDOVER)
    case NotPrepared(_, outcome) => Finishing(p.claim, outcome, p.settings)
    case Ineligible(_) => Finishing(p.claim, Plain(Skip, "no_longer_eligible"), p.settings)
    case StartSend(_) =>
      Sending(p.claim, p.delivery, p.settings, s.clock + p.settings.sendSeconds * SECOND, 0, p.claim.receipts, false)
    case SkipCompleted(_) => p.(next := p.next + 1)
    case Transmit(_) => p.(waiting := true)
    case Respond(_, verdict) =>
      if verdict.Receipt? then p.(next := p.next + 1, receipts := p.receipts[p.next := verdict.id], waiting := false)
      else Finishing(p.claim, Stopped(verdict, p.receipts), p.settings)
    case Complete(_) => Finishing(p.claim, Outcome(Accepted, "provider_accepted", 0, p.receipts), p.settings)
    case Abort(_, failed) =>
      Finishing(p.claim, if failed then Plain(Block, "handler_failure") else Plain(Unsure, "submission_timeout"),
                p.settings)
  }

  lemma LocalHasEffect(s: State, a: Action, t: State)
    requires Local(a) && Next(s, a, t)
    ensures a.w in s.workers && Enabled(s, a)
    ensures t.workers == s.workers[a.w := LocalPhase(s, a, s.workers[a.w])]
    ensures t.db.rows == s.db.rows && t.issued == s.issued && t.accepted == s.accepted
    ensures t.unbound == if a.NotPrepared? then s.unbound - {s.workers[a.w].claim.token} else s.unbound
  {
  }

  lemma RespondPhaseFits(s: State, a: Action, p: Phase, r: Row)
    requires a.Respond? && Enabled(s, a) && p == s.workers[a.w]
    requires ClaimFits(p.claim, r) && PhaseFits(p, r, s.accepted)
    ensures PhaseFits(LocalPhase(s, a, p), r, s.accepted)
    ensures LocalPhase(s, a, p).claim == p.claim && Started(p) && Started(LocalPhase(s, a, p))
  {
  }

  /** A local step leads from fitting phase to fitting phase. */
  lemma LocalPhaseFits(s: State, a: Action, p: Phase, r: Row)
    requires Local(a) && Enabled(s, a) && p == s.workers[a.w]
    requires ClaimFits(p.claim, r) && PhaseFits(p, r, s.accepted)
    requires Backed(s.accepted, r.envelope.eventId, r.receipts)
    ensures PhaseFits(LocalPhase(s, a, p), r, s.accepted)
    ensures LocalPhase(s, a, p).claim == p.claim
    ensures Started(LocalPhase(s, a, p)) <==> (Started(p) || a.NotPrepared?)
  {
    if a.Respond? {
      RespondPhaseFits(s, a, p, r);
    } else {
      hide Honest, Backed;
      if a.Complete? {
        DeliveryCommits(p.delivery.submission, r.envelope.eventId);
      }
    }
  }

  lemma LocalWorkerStep(s: State, a: Action, t: State)
    requires WorkersOk(s) && ReceiptsOk(s) && Local(a) && Next(s, a, t)
    ensures a.w in t.workers && WorkerOk(t, t.workers[a.w])
    ensures a.w in s.workers && t.workers[a.w].claim == s.workers[a.w].claim
  {
    hide Next, Enabled, ClaimFits, PhaseFits, Backed, LocalPhase;
    LocalHasEffect(s, a, t);
    var p := s.workers[a.w];
    assert WorkerOk(s, p);
    LocalPhaseFits(s, a, p, s.db.rows[p.claim.messageId]);
  }

  lemma BinderHasEffect(s: State, a: Action, t: State)
    requires a.Bind? && Next(s, a, t)
    requires s.workers[a.w].claim.messageId in s.db.rows
    ensures a.w in s.workers && s.workers[a.w].Binding?
    ensures var p := s.workers[a.w];
            var r := s.db.rows[p.claim.messageId];
            && t.issued == s.issued && t.accepted == s.accepted
            && t.unbound == s.unbound - {p.claim.token}
            && FencedEffect(s, t, p, a.ownedAt, RowAfterBind(s, p, a.now))
            && (a.w in t.workers ==>
                  && Owned(s.db.rows, p.claim, a.ownedAt)
                  && t.workers[a.w] == Bound(p.claim, p.delivery, p.settings, s.clock + HANDOVER)
                  && BindDecision(r, p.claim, p.delivery.submission.fingerprint, p.delivery.expiresAt, a.now)
                     == Allowed)
  {
  }

  lemma BinderStep(s: State, a: Action, t: State)
    requires RowsOk(s) && WorkersOk(s) && a.Bind? && Next(s, a, t) && a.w in t.workers
    ensures WorkerOk(t, t.workers[a.w])
    ensures a.w in s.workers && t.workers[a.w].claim == s.workers[a.w].claim
  {
    hide Next;
    BindHasEffect(s, a, t);
    var p := s.workers[a.w];
    assert WorkerOk(s, p);
    BinderHasEffect(s, a, t);
    var r := s.db.rows[p.claim.messageId];
    assert RowOk(r);
    BindEvolves(r, p.claim, p.delivery.submission.fingerprint, p.delivery.expiresAt, a.now);
  }

  lemma TokensStayDistinct(s: State, a: Action, t: State)
    requires WorkersOk(s) && WorkersFrame(s, a, t)
    requires Actor(a).Some? && Actor(a).value in t.workers ==>
               if Actor(a).value in s.workers
               then t.workers[Actor(a).value].claim.token == s.workers[Actor(a).value].claim.token
               else t.workers[Actor(a).value].claim.token !in s.issued
    ensures forall v, w | v in t.workers && w in t.workers && v != w ::
              t.workers[v].claim.token != t.workers[w].claim.token
  {
    forall v, w | v in t.workers && w in t.workers && v != w
      ensures t.workers[v].claim.token != t.workers[w].claim.token
    {
      if v in s.workers {
        assert WorkerOk(s, s.workers[v]);
      }
      if w in s.workers {
        assert WorkerOk(s, s.workers[w]);
      }
    }
  }

  lemma LeaverHasEffect(s: State, a: Action, t: State)
    requires (a.Finish? || a.Crash?) && Next(s, a, t)
    ensures t.workers == s.workers - {a.w}
  {
  }

  lemma ClaimEnabled(s: State, a: Action, t: State)
    requires a.ClaimOne? && Next(s, a, t)
    ensures a.w !in s.workers && a.now <= s.clock && a.settings.Valid() && a.token !in s.issued
  {
  }

  lemma UnboundAreIssued(s: State)
    requires TableOk(s)
    ensures forall k | k in s.unbound :: k in s.issued
  {
  }

  /** The moved worker, in every step that leaves it in place. */
  lemma ActorStep(s: State, a: Action, t: State, w: Worker)
    requires RowsOk(s) && TableOk(s) && WorkersOk(s) && ReceiptsOk(s) && Next(s, a, t)
    requires Actor(a) == Some(w) && w in t.workers
    ensures WorkerOk(t, t.workers[w])
    ensures if w in s.workers then t.workers[w].claim.token == s.workers[w].claim.token
            else t.workers[w].claim.token !in s.issued
  {
    hide Next, RowsOk, TableOk, WorkersOk, ReceiptsOk, WorkerOk;
    assert a.ClaimOne? || Local(a) || a.Bind? || a.Finish? || a.Crash?;
    assert a.w == w;
    hide Actor, Local;
    if a.ClaimOne? {
      ClaimEnabled(s, a, t);
      UnboundAreIssued(s);
      var claim := ClaimHasEffect(s, a, t);
      ClaimerStep(s, a, t, claim);
    } else if Local(a) {
      LocalWorkerStep(s, a, t);
    } else if a.Bind? {
      BinderStep(s, a, t);
    } else {
      LeaverHasEffect(s, a, t);
    }
  }

  lemma WorkersStep(s: State, a: Action, t: State)
    requires RowsOk(s) && TableOk(s) && WorkersOk(s) && ReceiptsOk(s) && Next(s, a, t)
    requires RowsEvolve(s, a, t)
    ensures WorkersOk(t)
  {
    hide Next, WorkerOk, RowsEvolve, RowsOk, TableOk, ReceiptsOk, WorkersFrame;
    if a.Bind? {
      BindHasEffect(s, a, t);
    }
    FrameStep(s, a, t);
    if Actor(a).Some? && Actor(a).value in t.workers {
      ActorStep(s, a, t, Actor(a).value);
    }
    TokensStayDistinct(s, a, t);
    forall v | v in t.workers ensures WorkerOk(t, t.workers[v]) {
      if Actor(a) != Some(v) {
        IdleWorkerStep(s, a, t, v);
      }
    }
  }

  // ---- table, wire, provider and receipts ------------------------------------------

  /** What every step but an add and a claim does to the table's history. */
  ghost predicate TableEffect(s: State, a: Action, t: State) {
    && t.db.rows.Keys == s.db.rows.Keys && t.issued == s.issued && t.firstDue == s.firstDue
    && t.unbound <= s.unbound
    && (a.OrdinaryClaim? || t.batched == s.batched)
    && forall id | id in t.batched && id !in s.batched :: id in s.db.rows && !Leased(s.db.rows[id])
  }

  lemma QuietTable(s: State, a: Action, t: State)
    requires Next(s, a, t) && Quiet(a)
    ensures TableEffect(s, a, t)
  {
  }

  lemma WrittenTable(s: State, a: Action, t: State)
    requires Next(s, a, t) && !Quiet(a) && !a.Add? && !a.ClaimOne? && !a.OrdinaryClaim?
    ensures TableEffect(s, a, t)
  {
  }

  lemma TableHasEffect(s: State, a: Action, t: State)
    requires Next(s, a, t) && !a.Add? && !a.ClaimOne?
    ensures TableEffect(s, a, t)
  {
    hide Next;
    if a.OrdinaryClaim? {
      OrdinaryClaimIsBatch(s, a, t);
      BatchHasEffect(s, a, t);
    } else if Quiet(a) {
      QuietTable(s, a, t);
    } else {
      WrittenTable(s, a, t);
    }
  }

  lemma BatchHasEffect(s: State, a: Action, t: State)
    requires Next(s, a, t) && a.OrdinaryClaim?
    ensures t.db.rows.Keys == s.db.rows.Keys
    ensures forall id | id in t.batched && id !in s.batched :: id in s.db.rows && !Leased(s.db.rows[id])
  {
    hide Next, Batch, OrdinaryOvertaking;
    OrdinaryClaimIsBatch(s, a, t);
    var batch := Batch(s.db.rows, a.types, a.maxAttempts, a.limit, a.now, a.busy);
    forall id | id in batch ensures id in s.db.rows && !Leased(s.db.rows[id]) {
      assert OrdinaryClaimable(s.db.rows, s.db.rows[id], a.types, a.maxAttempts, a.now);
    }
    hide OrdinaryClaimable;
  }

  lemma AddTableStep(s: State, a: Action, t: State)
    requires TableOk(s) && a.Add? && Next(s, a, t)
    ensures TableOk(t)
  {
    assert a.id !in s.db.rows && t == WithRows(s, s.db.rows[a.id := NewRow(a.envelope, a.availableAt)]);
    assert forall x | x in s.db.rows :: s.db.rows[x].envelope.eventId != a.envelope.eventId;
    hide Next;
    assert EventIdsUnique(t.db.rows);
    hide EventIdsUnique;
  }

  lemma EnvelopesStay(s: State, a: Action, t: State)
    requires RowsEvolve(s, a, t)
    ensures forall id | id in s.db.rows :: id in t.db.rows && t.db.rows[id].envelope == s.db.rows[id].envelope
    ensures t.db.rows.Keys == s.db.rows.Keys && EventIdsUnique(s.db.rows) ==> EventIdsUnique(t.db.rows)
  {
    hide Fenced;
  }

  lemma ClaimTableFacts(s: State, a: Action, t: State, claim: Option<Claim>)
    requires a.ClaimOne? && ClaimEffect(s, a, t, claim)
    ensures t.db.rows.Keys == s.db.rows.Keys && t.batched == s.batched
    ensures forall k | k in t.issued ::
              || (k in s.issued && t.issued[k] == s.issued[k])
              || (t.issued[k] in s.db.rows && Leased(s.db.rows[t.issued[k]]))
    ensures forall k | k in t.unbound :: k in s.unbound || k in t.issued
    ensures a.token !in s.issued ==> forall k | k in s.issued :: k in t.issued
  {
    if claim.Some? {
      var id := claim.value.messageId;
      assert HandedOut(id, s.db.rows[id], t.db.rows[id], claim.value, LEASED_TYPES, a.now, a.settings, a.token);
    }
    hide SetAside, HandedOut;
  }

  lemma FirstDueIsDue(s: State, a: Action, t: State, claim: Option<Claim>)
    requires a.ClaimOne? && ClaimEffect(s, a, t, claim) && RowsEvolve(s, a, t)
    requires forall id | id in s.firstDue :: id in s.db.rows && s.db.rows[id].deadline.Some?
    ensures forall id | id in t.firstDue :: id in t.db.rows && t.db.rows[id].deadline.Some?
  {
    hide Fenced, SetAside, HandedOut, AfterClaim;
  }

  lemma ClaimTableStep(s: State, a: Action, t: State)
    requires TableOk(s) && a.ClaimOne? && Next(s, a, t) && RowsEvolve(s, a, t)
    ensures TableOk(t)
  {
    hide Next, ClaimEffect, RowsEvolve, EventIdsUnique;
    ClaimEnabled(s, a, t);
    var claim := ClaimHasEffect(s, a, t);
    ClaimTableFacts(s, a, t, claim);
    FirstDueIsDue(s, a, t, claim);
    EnvelopesStay(s, a, t);
  }

  lemma TableStep(s: State, a: Action, t: State)
    requires TableOk(s) && Next(s, a, t) && RowsEvolve(s, a, t)
    ensures TableOk(t)
  {
    hide Next, Fenced;
    if a.Add? {
      hide *;
      AddTableStep(s, a, t);
    } else if a.ClaimOne? {
      hide *;
      ClaimTableStep(s, a, t);
    } else {
      TableHasEffect(s, a, t);
      EnvelopesStay(s, a, t);
      hide EventIdsUnique;
    }
  }

  lemma WireHasEffect(s: State, a: Action, t: State)
    requires Next(s, a, t)
    ensures a.Transmit? ==> a.w in s.workers && s.workers[a.w].Sending? && t.clock == s.clock
    ensures a.Transmit? ==>
              var p := s.workers[a.w];
              && p.next < |p.delivery.submission.requests|
              && t.wire == s.wire + {Sent(p.claim.messageId, p.delivery.submission.requests[p.next], s.clock)}
    ensures !a.Transmit? ==> t.wire == s.wire
  {
  }

  lemma SentStillFits(x: Sent, r: Row, r': Row)
    requires SentFits(x, r) && Evolves(r, r')
    ensures SentFits(x, r')
  {
  }

  lemma NewSentFits(s: State, p: Phase, r: Row)
    requires p.Sending? && ClaimFits(p.claim, r) && PhaseFits(p, r, s.accepted)
    requires p.next < |p.delivery.submission.requests|
    ensures SentFits(Sent(p.claim.messageId, p.delivery.submission.requests[p.next], s.clock), r)
  {
    DeliveryCommits(p.delivery.submission, r.envelope.eventId);
  }

  lemma WireStep(s: State, a: Action, t: State)
    requires RowsOk(s) && WorkersOk(s) && WireOk(s) && Next(s, a, t) && RowsEvolve(s, a, t)
    ensures WireOk(t)
  {
    hide Next, SentFits, Evolves, Fenced, PhaseFits, RowOk, TokenOf;
    WireHasEffect(s, a, t);
    forall x | x in t.wire
      ensures x.messageId in t.db.rows && SentFits(x, t.db.rows[x.messageId])
      ensures x.messageId in t.firstDue && t.firstDue[x.messageId] <= x.at <= t.clock
    {
      if x !in s.wire {
        var p := s.workers[a.w];
        assert WorkerOk(s, p);
        assert Dated(s, p.claim.messageId, s.db.rows[p.claim.messageId]);
        NewSentFits(s, p, s.db.rows[p.claim.messageId]);
      }
      SentStillFits(x, s.db.rows[x.messageId], t.db.rows[x.messageId]);
    }
  }

  lemma ProviderHasEffect(s: State, a: Action, t: State)
    requires Next(s, a, t)
    ensures s.wire <= t.wire && s.clock <= t.clock
    ensures t.accepted == s.accepted
            || (a.Process? && a.sent in s.wire && !Remembered(s.accepted, a.sent.request.key, s.clock)
                && t.accepted == s.accepted + {Acceptance(a.sent, a.receipt, s.clock)})
  {
  }

  lemma ProviderStep(s: State, a: Action, t: State)
    requires WireOk(s) && ProviderOk(s) && Next(s, a, t)
    ensures ProviderOk(t)
  {
    hide Next, SentFits;
    ProviderHasEffect(s, a, t);
  }

  lemma FinisherHasEffect(s: State, a: Action, t: State)
    requires a.Finish? && Next(s, a, t) && WorkersOk(s)
    ensures a.w in s.workers && s.workers[a.w].Finishing?
    ensures t.accepted == s.accepted
    ensures var p := s.workers[a.w];
            forall id | id in s.db.rows :: id in t.db.rows &&
              (t.db.rows[id].receipts == s.db.rows[id].receipts
               || (id == p.claim.messageId
                   && t.db.rows[id].receipts == s.db.rows[id].receipts + p.outcome.receipts))
  {
    FinishHasEffect(s, a, t);
    hide Next;
    assert WorkerOk(s, s.workers[a.w]);
  }

  lemma BackedMerge(accepted: set<Acceptance>, deliveryId: Id, old': Receipts, new': Receipts)
    requires Backed(accepted, deliveryId, old') && Backed(accepted, deliveryId, new')
    ensures Backed(accepted, deliveryId, old' + new')
  {
  }

  lemma AddedHasEffect(s: State, a: Action, t: State)
    requires Next(s, a, t)
    ensures forall id | id in t.db.rows && id !in s.db.rows :: t.db.rows[id].receipts == map[]
    ensures a.Finish? ==> t.accepted == s.accepted
  {
    if a.ClaimOne? {
      var claim := ClaimHasEffect(s, a, t);
    } else if !a.Add? {
      TableHasEffect(s, a, t);
    }
  }

  lemma ReceiptsStep(s: State, a: Action, t: State)
    requires WorkersOk(s) && ReceiptsOk(s) && Next(s, a, t) && RowsEvolve(s, a, t)
    ensures ReceiptsOk(t)
  {
    hide Next, Backed, WorkersOk, RowsEvolve;
    AddedHasEffect(s, a, t);
    forall id | id in t.db.rows ensures Backed(t.accepted, t.db.rows[id].envelope.eventId, t.db.rows[id].receipts) {
      if id in s.db.rows {
        ReceiptRowStep(s, a, t, id);
      } else {
        EmptyIsBacked(t.accepted, t.db.rows[id].envelope.eventId);
      }
    }
  }

  lemma ReceiptRowStep(s: State, a: Action, t: State, id: Id)
    requires WorkersOk(s) && ReceiptsOk(s) && Next(s, a, t) && RowsEvolve(s, a, t) && id in s.db.rows
    ensures id in t.db.rows && Backed(t.accepted, t.db.rows[id].envelope.eventId, t.db.rows[id].receipts)
  {
    hide Next, Backed;
    AddedHasEffect(s, a, t);
    if a.Finish? {
      FinisherHasEffect(s, a, t);
      assert WorkerOk(s, s.workers[a.w]);
    }
    var deliveryId := s.db.rows[id].envelope.eventId;
    assert t.db.rows[id].envelope.eventId == deliveryId;
    BackedGrows(s.accepted, t.accepted, deliveryId, s.db.rows[id].receipts);
    if t.db.rows[id].receipts != s.db.rows[id].receipts {
      BackedMerge(s.accepted, deliveryId, s.db.rows[id].receipts, s.workers[a.w].outcome.receipts);
    }
  }

  lemma EmptyIsBacked(accepted: set<Acceptance>, deliveryId: Id)
    ensures Backed(accepted, deliveryId, map[])
  {
  }

  /** The invariant holds initially and is kept by every step. */
  lemma InitialInv(s: State)
    requires Initial(s)
    ensures Inv(s)
  {
  }

  lemma InvStep(s: State, a: Action, t: State)
    requires Inv(s) && Next(s, a, t)
    ensures Inv(t) && RowsEvolve(s, a, t)
  {
    hide Next, RowsOk, TableOk, WorkersOk, WireOk, ProviderOk, ReceiptsOk, RowsEvolve;
    RowsStep(s, a, t);
    WorkersStep(s, a, t);
    TableStep(s, a, t);
    WireStep(s, a, t);
    ProviderStep(s, a, t);
    ReceiptsStep(s, a, t);
  }

  /** Every state of every run satisfies the invariant. */
  lemma {:induction false} RunInv(states: seq<State>, actions: seq<Action>, i: nat)
    requires Run(states, actions) && i < |states|
    ensures Inv(states[i])
  {
    hide Next, Inv, Initial;
    if i == 0 {
      InitialInv(states[0]);
    } else {
      RunInv(states, actions, i - 1);
      InvStep(states[i - 1], actions[i - 1], states[i]);
    }
  }
}
