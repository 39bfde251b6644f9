/** Challenge e-mails inside the delivery protocol: what retries of one message bind. */
module ChallengeDelivery {
  import opened Basics
  import opened Canonical
  import opened OutboxModel
  import opened OutboxTransactions
  import opened Sender
  import opened Protocol
  import opened RowLemmas
  import opened Invariant
  import opened Preservation
  import opened Guarantees
  import C = Challenges
  import EmailHandler

  /** What stays configured. */
  datatype Mailer = Mailer(sender: string, fingerprintKey: Bytes, encode: Document -> Body)

  /** When a preparation read the challenge, in a run of the challenge tables, and under which keys. */
  datatype Reading = Reading(moment: nat, keys: C.Keys)

  /**
   * Step n, if it is a preparation, is one by the challenge handler: it mails the challenge
   * that is the event's aggregate.
   */
  ghost predicate FromHandler(states: seq<State>, actions: seq<Action>, dbs: seq<C.Db>, readings: seq<Reading>,
                              mailer: Mailer, n: nat)
    requires n < |actions| && n < |states| && n < |readings|
  {
    actions[n].Prepared? && actions[n].w in states[n].workers && states[n].workers[actions[n].w].claim.event.Some? ==>
      var event, moment := states[n].workers[actions[n].w].claim.event.value, readings[n].moment;
      var id, keys := event.aggregate.id, readings[n].keys;
      && moment < |dbs| && id in dbs[moment].challenges && dbs[moment].challenges[id].keyVersion in keys.secrets
      && EmailHandler.Mails(actions[n].delivery.submission, event.eventId, id, dbs[moment].challenges[id], keys,
                            mailer.sender, mailer.fingerprintKey, mailer.encode)
  }

  /** Versions come and go, but the secret of a version never changes. */
  ghost predicate SecretsStay(readings: seq<Reading>) {
    forall m, n, version | 0 <= m < |readings| && 0 <= n < |readings|
                           && version in readings[m].keys.secrets && version in readings[n].keys.secrets ::
      && readings[m].keys.derive == readings[n].keys.derive
      && readings[m].keys.secrets[version] == readings[n].keys.secrets[version]
  }

  /** Step n prepared a delivery of the message. */
  predicate Prepares(states: seq<State>, actions: seq<Action>, n: nat, id: Id) {
    && n < |actions| && n < |states| && actions[n].Prepared? && actions[n].w in states[n].workers
    && states[n].workers[actions[n].w].claim.messageId == id
  }

  lemma BindingStep(s: State, a: Action, t: State, w: Worker)
    requires Next(s, a, t) && w in t.workers && t.workers[w].Binding?
    ensures w in s.workers && t.workers[w].claim == s.workers[w].claim
    ensures || t.workers[w] == s.workers[w]
            || (a.Prepared? && a.w == w && t.workers[w].delivery == a.delivery)
  {
    if Actor(a) != Some(w) {
      FrameStep(s, a, t);
      hide Next;
    } else if Local(a) {
      LocalHasEffect(s, a, t);
      hide Next;
    }
  }

  /** What a worker is about to bind was prepared for the message it claimed. */
  lemma {:induction false} BindingWasPrepared(states: seq<State>, actions: seq<Action>, i: nat, w: Worker)
    returns (n: nat)
    requires Run(states, actions) && i < |states| && w in states[i].workers && states[i].workers[w].Binding?
    ensures n < i && Prepares(states, actions, n, states[i].workers[w].claim.messageId)
    ensures actions[n].delivery == states[i].workers[w].delivery
  {
    hide Next;
    if i > 0 {
      hide Initial;
      BindingStep(states[i - 1], actions[i - 1], states[i], w);
      if states[i].workers[w] == states[i - 1].workers[w] {
        n := BindingWasPrepared(states, actions, i - 1, w);
      } else {
        n := i - 1;
      }
    }
  }

  predicate SameFingerprint(s: State, t: State, id: Id) {
    id in s.db.rows && id in t.db.rows && t.db.rows[id].fingerprint == s.db.rows[id].fingerprint
  }

  lemma ClaimBindsNothing(s: State, a: Action, t: State, id: Id)
    requires a.ClaimOne? && Next(s, a, t) && id in t.db.rows
    ensures SameFingerprint(s, t, id)
  {
    hide Next;
    var claim := ClaimHasEffect(s, a, t);
    assert if claim.Some? && id == claim.value.messageId
           then HandedOut(id, s.db.rows[id], t.db.rows[id], claim.value, LEASED_TYPES, a.now, a.settings, a.token)
           else SetAside(s.db.rows[id], t.db.rows[id], LEASED_TYPES, a.now, a.settings);
  }

  lemma OrdinaryBindsNothing(s: State, a: Action, t: State, id: Id)
    requires TableOk(s) && Ordinary(a) && Next(s, a, t) && id in t.db.rows
    ensures SameFingerprint(s, t, id)
  {
    hide Next, EventIdsUnique, Leased;
    if a.OrdinaryClaim? {
      OrdinaryClaimHasEffect(s, a, t);
    } else if a.OrdinaryRecover? {
      OrdinaryRecoverHasEffect(s, a, t);
    } else {
      OrdinaryMarkHasEffect(s, a, t);
    }
    hide TableOk;
  }

  lemma AddBindsNothing(s: State, a: Action, t: State, id: Id)
    requires a.Add? && Next(s, a, t) && id in t.db.rows && t.db.rows[id].fingerprint.Some?
    ensures SameFingerprint(s, t, id)
  {
    assert t.db.rows == s.db.rows[a.id := NewRow(a.envelope, a.availableAt)];
  }

  lemma FencedBindsItsOwn(s: State, a: Action, t: State, id: Id)
    requires WorkersOk(s) && (a.Bind? || a.Finish?) && Next(s, a, t)
    requires id in t.db.rows && t.db.rows[id].fingerprint.Some?
    ensures SameFingerprint(s, t, id) || (a.Bind? && BindsIt(s, a, t, id))
  {
    hide Next;
    if a.Bind? {
      BindHasEffect(s, a, t);
    } else {
      FinishHasEffect(s, a, t);
    }
    assert WorkerOk(s, s.workers[a.w]);
    hide WorkersOk, ClaimFits, PhaseFits;
  }

  predicate BindsIt(s: State, a: Action, t: State, id: Id)
    requires a.Bind?
  {
    && a.w in s.workers && s.workers[a.w].Binding? && s.workers[a.w].claim.messageId == id
    && id in t.db.rows && t.db.rows[id].fingerprint == Some(s.workers[a.w].delivery.submission.fingerprint)
  }

  /** Only a bind sets a fingerprint, to that of the delivery it presents. */
  lemma FingerprintStep(s: State, a: Action, t: State, id: Id)
    requires Inv(s) && Next(s, a, t) && id in t.db.rows && t.db.rows[id].fingerprint.Some?
    ensures SameFingerprint(s, t, id) || (a.Bind? && BindsIt(s, a, t, id))
  {
    hide Next, RowsOk, TableOk, WorkersOk, WireOk, ProviderOk, ReceiptsOk, BindsIt;
    if a.ClaimOne? {
      ClaimBindsNothing(s, a, t, id);
    } else if a.Bind? || a.Finish? {
      FencedBindsItsOwn(s, a, t, id);
    } else if a.Replay? {
      ReplayHasEffect(s, a, t);
    } else if Ordinary(a) {
      OrdinaryBindsNothing(s, a, t, id);
    } else if a.Add? {
      AddBindsNothing(s, a, t, id);
    } else {
      QuietStep(s, a, t);
    }
  }

  /** A bound fingerprint is that of a delivery prepared for the message. */
  lemma {:induction false} FingerprintWasPrepared(states: seq<State>, actions: seq<Action>, i: nat, id: Id)
    returns (n: nat)
    requires Run(states, actions) && i < |states| && id in states[i].db.rows
    requires states[i].db.rows[id].fingerprint.Some?
    ensures n < i && Prepares(states, actions, n, id)
    ensures states[i].db.rows[id].fingerprint == Some(actions[n].delivery.submission.fingerprint)
  {
    hide Next, Inv;
    if i > 0 {
      hide Initial;
      RunStep(states, actions, i - 1);
      var s, a := states[i - 1], actions[i - 1];
      FingerprintStep(s, a, states[i], id);
      if SameFingerprint(s, states[i], id) {
        n := FingerprintWasPrepared(states, actions, i - 1, id);
      } else {
        n := BindingWasPrepared(states, actions, i - 1, a.w);
      }
    }
  }

  /** A preparation is for the event of its message. */
  lemma PreparedEvent(states: seq<State>, actions: seq<Action>, n: nat, i: nat, id: Id)
    requires Run(states, actions) && n < i < |states| && Prepares(states, actions, n, id)
    ensures id in states[i].db.rows
    ensures states[n].workers[actions[n].w].claim.event == Some(states[i].db.rows[id].envelope)
  {
    var s, w := states[n], actions[n].w;
    RunInv(states, actions, n);
    assert Next(s, actions[n], states[n + 1]);
    assert WorkerOk(s, s.workers[w]);
    hide Next, Initial, Inv;
    RowsOnlyEvolve(states, actions, n, i, id);
  }

  /** Any two preparations for one message make the same submission. */
  lemma PreparationsAgree(states: seq<State>, actions: seq<Action>, dbs: seq<C.Db>, steps: seq<C.Step>,
                          policy: C.Policy, readings: seq<Reading>, mailer: Mailer, m: nat, n: nat, i: nat, id: Id)
    requires Run(states, actions) && C.Run(dbs, steps, policy) && |readings| == |actions| && SecretsStay(readings)
    requires m < i && n < i && i < |states|
    requires Prepares(states, actions, m, id) && FromHandler(states, actions, dbs, readings, mailer, m)
    requires Prepares(states, actions, n, id) && FromHandler(states, actions, dbs, readings, mailer, n)
    requires readings[m].moment <= readings[n].moment
    ensures actions[m].delivery.submission == actions[n].delivery.submission
  {
    PreparedEvent(states, actions, m, i, id);
    PreparedEvent(states, actions, n, i, id);
    hide Run, C.Run, EmailHandler.Mails;
    var eventId, challenge := states[i].db.rows[id].envelope.eventId, states[i].db.rows[id].envelope.aggregate.id;
    var x, y := readings[m], readings[n];
    C.CoreStays(dbs, steps, policy, x.moment, y.moment, challenge);
    var version := dbs[x.moment].challenges[challenge].keyVersion;
    assert C.Core(dbs[x.moment].challenges[challenge]).keyVersion == version;
    assert C.Core(dbs[y.moment].challenges[challenge]).keyVersion == dbs[y.moment].challenges[challenge].keyVersion;
    EmailHandler.RetriesPrepareTheSameMail(
      dbs, steps, policy, x.moment, y.moment, challenge, eventId, x.keys, y.keys, mailer.sender,
      mailer.fingerprintKey, mailer.encode, actions[m].delivery.submission, actions[n].delivery.submission);
  }

  /**
   * While the sender, the fingerprint key and the secret of each version stay configured, a
   * bind never meets changed content, whatever retries, crashes, replays and rotations of the
   * active version came before: it is refused only by the fence or the deadline, and pauses
   * no group.
   */
  lemma RetriesNeverChangeContent(states: seq<State>, actions: seq<Action>, dbs: seq<C.Db>, steps: seq<C.Step>,
                                  policy: C.Policy, readings: seq<Reading>, mailer: Mailer, i: nat)
    requires Run(states, actions) && C.Run(dbs, steps, policy)
    requires |readings| == |actions| && SecretsStay(readings)
    requires forall n | 0 <= n < |actions| :: FromHandler(states, actions, dbs, readings, mailer, n)
    requires i < |actions| && actions[i].Bind?
    ensures var s, a, t := states[i], actions[i], states[i + 1];
            && t.db.controls == s.db.controls
            && a.w in s.workers && s.workers[a.w].Binding?
            && var p := s.workers[a.w];
            && (Owned(s.db.rows, p.claim, a.ownedAt) && a.now < Min(p.claim.deadline, p.delivery.expiresAt)
                <==> a.w in t.workers)
            && (Owned(s.db.rows, p.claim, a.ownedAt) ==>
                  BindDecision(s.db.rows[p.claim.messageId], p.claim, p.delivery.submission.fingerprint,
                               p.delivery.expiresAt, a.now) != ContentChanged)
  {
    var s, a := states[i], actions[i];
    assert Next(s, a, states[i + 1]);
    assert a.w in s.workers && s.workers[a.w].Binding?;
    var p := s.workers[a.w];
    var id := p.claim.messageId;
    if Owned(s.db.rows, p.claim, a.ownedAt) && s.db.rows[id].fingerprint.Some? {
      hide Next, C.Run, SecretsStay, FromHandler;
      var m := BindingWasPrepared(states, actions, i, a.w);
      var n := FingerprintWasPrepared(states, actions, i, id);
      hide Run;
      if readings[m].moment <= readings[n].moment {
        PreparationsAgree(states, actions, dbs, steps, policy, readings, mailer, m, n, i, id);
      } else {
        PreparationsAgree(states, actions, dbs, steps, policy, readings, mailer, n, m, i, id);
      }
    }
    BindWithoutChange(s, a, states[i + 1], p);
  }

  lemma BindWithoutChange(s: State, a: Action, t: State, p: Phase)
    requires a.Bind? && Next(s, a, t) && p == s.workers[a.w]
    requires Owned(s.db.rows, p.claim, a.ownedAt) ==>
               var r := s.db.rows[p.claim.messageId];
               r.fingerprint.Some? ==> r.fingerprint.value == p.delivery.submission.fingerprint
    ensures t.db.controls == s.db.controls
    ensures Owned(s.db.rows, p.claim, a.ownedAt) && a.now < Min(p.claim.deadline, p.delivery.expiresAt)
            <==> a.w in t.workers
    ensures Owned(s.db.rows, p.claim, a.ownedAt) ==>
              BindDecision(s.db.rows[p.claim.messageId], p.claim, p.delivery.submission.fingerprint,
                           p.delivery.expiresAt, a.now) != ContentChanged
  {
  }
}
