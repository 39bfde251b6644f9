/** What the protocol guarantees over whole runs, whatever workers, crashes, leases and operators do. */
module Guarantees {
  import opened Basics
  import opened Canonical
  import opened OutboxModel
  import opened OutboxTransactions
  import opened Sender
  import opened Protocol
  import opened RowLemmas
  import opened Invariant
  import opened Preservation

  // ---- runs ------------------------------------------------------------------------

  lemma RunStep(states: seq<State>, actions: seq<Action>, i: nat)
    requires Run(states, actions) && i < |actions|
    ensures Inv(states[i]) && Inv(states[i + 1])
    ensures Next(states[i], actions[i], states[i + 1])
    ensures RowsEvolve(states[i], actions[i], states[i + 1])
  {
    hide Next, Inv, Initial;
    RunInv(states, actions, i);
    InvStep(states[i], actions[i], states[i + 1]);
  }

  lemma EvolvesTransitive(a: Row, b: Row, c: Row)
    requires Evolves(a, b) && Evolves(b, c)
    ensures Evolves(a, c)
  {
  }

  /**
   * A row is never lost; its envelope, bound fingerprint and stored receipts never change,
   * its deadline never moves later, and once published, skipped or uncertain it is frozen.
   */
  lemma {:induction false} RowsOnlyEvolve(states: seq<State>, actions: seq<Action>, i: nat, j: nat, id: Id)
    requires Run(states, actions) && i <= j < |states| && id in states[i].db.rows
    ensures id in states[j].db.rows
    ensures Evolves(states[i].db.rows[id], states[j].db.rows[id])
  {
    hide Next, Initial, Inv, Evolves;
    if i == j {
      EvolvesReflexive(states[i].db.rows[id]);
    } else {
      RowsOnlyEvolve(states, actions, i, j - 1, id);
      RunStep(states, actions, j - 1);
      RowsEvolveAt(states[j - 1], actions[j - 1], states[j], id);
      EvolvesTransitive(states[i].db.rows[id], states[j - 1].db.rows[id], states[j].db.rows[id]);
    }
  }

  lemma {:induction false} HistoryOnlyGrows(states: seq<State>, actions: seq<Action>, i: nat, j: nat)
    requires Run(states, actions) && i <= j < |states|
    ensures states[i].wire <= states[j].wire && states[i].accepted <= states[j].accepted
    ensures states[i].clock <= states[j].clock
    ensures forall k | k in states[i].issued :: k in states[j].issued && states[j].issued[k] == states[i].issued[k]
  {
    hide Next, Initial, Inv;
    if i < j {
      HistoryOnlyGrows(states, actions, i, j - 1);
      RunStep(states, actions, j - 1);
    }
  }

  // ---- idempotency keys ------------------------------------------------------------

  lemma SameKeySameRequest(s: State, x: Sent, y: Sent)
    requires Inv(s) && x in s.wire && y in s.wire && x.request.key == y.request.key
    ensures x.messageId == y.messageId && x.request == y.request
  {
    assert SentFits(x, s.db.rows[x.messageId]) && SentFits(y, s.db.rows[y.messageId]);
  }

  /** Every request ever sent under one idempotency key carries the same bytes. */
  lemma OneKeyOneBody(states: seq<State>, actions: seq<Action>, i: nat, j: nat, x: Sent, y: Sent)
    requires Run(states, actions) && i < |states| && j < |states|
    requires x in states[i].wire && y in states[j].wire && x.request.key == y.request.key
    ensures x.messageId == y.messageId && x.request == y.request
  {
    hide Next, Initial, Inv;
    var last := |states| - 1;
    HistoryOnlyGrows(states, actions, i, last);
    HistoryOnlyGrows(states, actions, j, last);
    RunInv(states, actions, last);
    SameKeySameRequest(states[last], x, y);
  }

  lemma HonestConflictNeedsMismatch(s: State, a: Action, t: State)
    requires a.Respond? && Next(s, a, t) && a.verdict.Stop? && a.verdict.code == "provider_key_conflict"
    ensures a.w in s.workers && s.workers[a.w].Sending?
    ensures var p := s.workers[a.w];
            && p.next < |p.delivery.submission.requests|
            && exists x | x in s.accepted ::
                 && x.sent.request.key == p.delivery.submission.requests[p.next].key
                 && x.sent.request != p.delivery.submission.requests[p.next]
  {
  }

  /** So an honest provider never reports that a key was reused with other content. */
  lemma NoKeyConflict(states: seq<State>, actions: seq<Action>, i: nat)
    requires Run(states, actions) && i < |actions| && actions[i].Respond?
    ensures actions[i].verdict.Stop? ==> actions[i].verdict.code != "provider_key_conflict"
  {
    hide Next, Initial, Inv;
    var s, a := states[i], actions[i];
    RunStep(states, actions, i);
    if a.verdict.Stop? && a.verdict.code == "provider_key_conflict" {
      HonestConflictNeedsMismatch(s, a, states[i + 1]);
      var p := s.workers[a.w];
      var request := p.delivery.submission.requests[p.next];
      var x :| x in s.accepted && x.sent.request.key == request.key && x.sent.request != request;
      WaitingRequestFits(s, a.w);
      AcceptedFits(s, x, Sent(p.claim.messageId, request, s.clock));
      assert false;
    }
  }

  lemma WaitingRequestFits(s: State, w: Worker)
    requires Inv(s) && w in s.workers && s.workers[w].Sending?
    requires s.workers[w].next < |s.workers[w].delivery.submission.requests|
    ensures var p := s.workers[w];
            && p.claim.messageId in s.db.rows
            && SentFits(Sent(p.claim.messageId, p.delivery.submission.requests[p.next], s.clock),
                        s.db.rows[p.claim.messageId])
  {
    var p := s.workers[w];
    assert WorkerOk(s, p);
    NewSentFits(s, p, s.db.rows[p.claim.messageId]);
  }

  lemma AcceptedFits(s: State, x: Acceptance, y: Sent)
    requires Inv(s) && x in s.accepted && x.sent.request.key == y.request.key
    requires y.messageId in s.db.rows && SentFits(y, s.db.rows[y.messageId])
    ensures x.sent.request == y.request
  {
    assert SentFits(x.sent, s.db.rows[x.sent.messageId]);
  }

  /** Two submissions of one key are at least as far apart as the provider's memory. */
  lemma RepeatedSubmissionsAreADayApart(states: seq<State>, actions: seq<Action>, i: nat, a: Acceptance, b: Acceptance)
    requires Run(states, actions) && i < |states|
    requires a in states[i].accepted && b in states[i].accepted && a.sent.request.key == b.sent.request.key
    ensures a.sent.request == b.sent.request
    ensures a == b || a.at + DAY <= b.at || b.at + DAY <= a.at
  {
    hide Next, Initial;
    RunInv(states, actions, i);
    SameKeySameRequest(states[i], a.sent, b.sent);
  }

  // ---- published messages ----------------------------------------------------------

  /**
   * A published challenge e-mail was accepted by the provider for every recipient its
   * fingerprint commits to, with exactly the committed bytes, and the stored receipt is
   * the one the provider gave.
   */
  lemma PublishedMeansAccepted(states: seq<State>, actions: seq<Action>, i: nat, id: Id, index: nat)
    requires Run(states, actions) && i < |states| && id in states[i].db.rows
    requires var r := states[i].db.rows[id]; Leased(r) && r.status == Published
    ensures states[i].db.rows[id].fingerprint.Some?
    ensures index < |Committed(states[i].db.rows[id].fingerprint.value)| ==>
              var r := states[i].db.rows[id];
              && index in r.receipts
              && exists a | a in states[i].accepted ::
                   && a.receipt == r.receipts[index]
                   && a.sent.request ==
                      Request(EmailKey(r.envelope.eventId, index), Committed(r.fingerprint.value)[index])
  {
    hide Next, Initial;
    var s := states[i];
    RunInv(states, actions, i);
    var r := s.db.rows[id];
    assert RowOk(r);
    if index < |Committed(r.fingerprint.value)| {
      assert Backed(s.accepted, r.envelope.eventId, r.receipts);
      var a :| a in s.accepted && a.sent.request.key == EmailKey(r.envelope.eventId, index)
               && a.receipt == r.receipts[index];
      assert SentFits(a.sent, s.db.rows[a.sent.messageId]);
      assert a.sent.messageId == id;
    }
  }

  // ---- uncertain and dead ----------------------------------------------------------

  /** A request on the wire means a bound fingerprint; so does an uncertain row. */
  lemma SentMeansBound(states: seq<State>, actions: seq<Action>, i: nat, id: Id)
    requires Run(states, actions) && i < |states| && id in states[i].db.rows
    requires states[i].db.rows[id].status == Uncertain || exists x | x in states[i].wire :: x.messageId == id
    ensures states[i].db.rows[id].fingerprint.Some?
  {
    hide Next, Initial;
    RunInv(states, actions, i);
    assert RowOk(states[i].db.rows[id]);
    if x :| x in states[i].wire && x.messageId == id {
      assert SentFits(x, states[i].db.rows[id]);
    }
  }

  lemma ClaimNeverKillsBound(s: State, a: Action, t: State, id: Id)
    requires a.ClaimOne? && Next(s, a, t) && id in s.db.rows && s.db.rows[id].fingerprint.Some?
    ensures id in t.db.rows && (t.db.rows[id].status == Dead ==> s.db.rows[id].status == Dead)
  {
    var claim := ClaimHasEffect(s, a, t);
    assert if claim.Some? && id == claim.value.messageId
           then HandedOut(id, s.db.rows[id], t.db.rows[id], claim.value, LEASED_TYPES, a.now, a.settings, a.token)
           else SetAside(s.db.rows[id], t.db.rows[id], LEASED_TYPES, a.now, a.settings);
  }

  lemma OrdinaryNeverKills(s: State, a: Action, t: State, id: Id)
    requires TableOk(s) && Ordinary(a) && Next(s, a, t) && id in s.db.rows
    ensures id in t.db.rows && (t.db.rows[id].status == Dead ==> s.db.rows[id].status == Dead)
  {
    hide Next;
    if a.OrdinaryClaim? {
      OrdinaryClaimHasEffect(s, a, t);
    } else if a.OrdinaryRecover? {
      OrdinaryRecoverHasEffect(s, a, t);
    } else {
      OrdinaryMarkHasEffect(s, a, t);
    }
  }

  lemma FencedNeverKillsBound(s: State, a: Action, t: State, id: Id)
    requires WorkersOk(s) && (a.Bind? || a.Finish?) && Next(s, a, t)
    requires id in s.db.rows && s.db.rows[id].fingerprint.Some?
    ensures a.w in s.workers && id in t.db.rows
    ensures t.db.rows[id].status == Dead && s.db.rows[id].status != Dead ==>
              && a.Finish? && s.workers[a.w].Finishing? && s.workers[a.w].claim.messageId == id
              && (|| s.workers[a.w].outcome.kind == Permanent
                  || (s.workers[a.w].outcome.kind == Retry && s.db.rows[id].attempts >= s.db.rows[id].retryBudget))
  {
    hide Next;
    if a.Bind? {
      BindHasEffect(s, a, t);
    } else {
      FinishHasEffect(s, a, t);
    }
    assert WorkerOk(s, s.workers[a.w]);
    hide WorkersOk, PhaseFits, ClaimFits;
  }

  lemma ReplayNeverKills(s: State, a: Action, t: State, id: Id)
    requires a.Replay? && Next(s, a, t) && id in s.db.rows
    ensures id in t.db.rows && (t.db.rows[id].status == Dead ==> s.db.rows[id].status == Dead)
  {
    ReplayHasEffect(s, a, t);
  }

  lemma AddTouchesNoRow(s: State, a: Action, t: State, id: Id)
    requires a.Add? && Next(s, a, t) && id in s.db.rows
    ensures id in t.db.rows && t.db.rows[id] == s.db.rows[id]
  {
  }

  /**
   * Once bound, a message becomes dead only through a finish that reports a permanent
   * failure or an exhausted retry: no expiry sweep, age check or deadline does it.
   */
  lemma BoundDiesOnlyByVerdict(states: seq<State>, actions: seq<Action>, i: nat, id: Id)
    requires Run(states, actions) && i < |actions|
    requires id in states[i].db.rows && states[i].db.rows[id].fingerprint.Some?
    ensures id in states[i + 1].db.rows
    ensures states[i + 1].db.rows[id].status == Dead && states[i].db.rows[id].status != Dead ==>
              var s, a := states[i], actions[i];
              && a.Finish? && a.w in s.workers && s.workers[a.w].Finishing? && s.workers[a.w].claim.messageId == id
              && (|| s.workers[a.w].outcome.kind == Permanent
                  || (s.workers[a.w].outcome.kind == Retry && s.db.rows[id].attempts >= s.db.rows[id].retryBudget))
  {
    hide Next, Initial, WorkersOk, TableOk, RowsOk, WireOk, ProviderOk, ReceiptsOk, RowsEvolve;
    RunStep(states, actions, i);
    var s, a, t := states[i], actions[i], states[i + 1];
    if a.ClaimOne? {
      ClaimNeverKillsBound(s, a, t, id);
    } else if a.Finish? || a.Bind? {
      FencedNeverKillsBound(s, a, t, id);
    } else if a.Replay? {
      ReplayNeverKills(s, a, t, id);
    } else if a.Add? {
      AddTouchesNoRow(s, a, t, id);
    } else if Ordinary(a) {
      OrdinaryNeverKills(s, a, t, id);
    } else {
      QuietStep(s, a, t);
    }
  }
}
