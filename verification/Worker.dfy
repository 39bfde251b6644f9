/** One pass of the leased worker (outbox/leased_worker.py), and why it is a run of the protocol. */
module Worker {
  import opened Basics
  import opened Canonical
  import opened OutboxModel
  import Tx = OutboxTransactions
  import opened Sender
  import P = Protocol
  import opened Repositories

  /** What handler.prepare did within its time bound. */
  datatype PrepareAnswer = Ready(delivery: P.Delivery) | Declined(outcome: Outcome) | PrepareTimeout

  /**
   * What handler.deliver met within its time bound: an answer to every request it asks, or an
   * interruption after the answers so far, perhaps with one more request under way.
   */
  datatype DeliverAnswer =
    | Answered(responses: seq<Response>)
    | Interrupted(responses: seq<Response>, underWay: bool, failed: bool)

  /**
   * Everything a pass reads from outside: clocks, draws, skipped rows, its handler, and the
   * answers of the provider, request i being handled at askedAt(i).
   */
  datatype World = World(
    claimedAt: Time, busySweep: set<Id>, busyPick: set<Id>, token: Token, prepare: PrepareAnswer,
    bindOwnedAt: Time, boundAt: Time, checkedAt: Time, deliver: DeliverAnswer, decode: Bytes -> Answer,
    askedAt: nat -> Time, finishOwnedAt: Time, finishedAt: Time, jitter: Time)
  {
    function Verdicts(): seq<Verdict> {
      Sender.Verdicts(deliver.responses, decode)
    }

    /** How many of the requests the delivery gets to. */
    function Reach(): nat {
      |deliver.responses| + if deliver.Interrupted? && deliver.underWay then 1 else 0
    }

    /** There is one answer for each request asked, none for others. */
    predicate LinesUp() {
      prepare.Ready? ==>
        var n := |prepare.delivery.submission.requests|;
        if deliver.Answered? then |deliver.responses| == n else Reach() <= n
    }
  }

  /** The outcome of a delivery and the indices of the requests it sent. */
  function Delivered(claim: Claim, world: World): (Outcome, seq<nat>) {
    match world.deliver
    case Answered(_) => PassResult(claim.receipts, world.Verdicts())
    case Interrupted(_, _, failed) =>
      (if failed then Plain(Block, "handler_failure") else Plain(Unsure, "submission_timeout"),
       Submitted(claim.receipts, world.Reach()))
  }

  function Finalized(db: Db, group: string, claim: Claim, outcome: Outcome, world: World): Db
    requires claim.attempts >= 1
  {
    Tx.FinishTx(db, group, claim, outcome, NextDelay(claim.attempts, outcome, world.jitter).value, world.finishOwnedAt,
                world.finishedAt).0
  }

  /** From the bind of a prepared delivery to the end of the pass, with the requests sent. */
  function Submit(db: Db, group: string, claim: Claim, delivery: P.Delivery, world: World): (Db, seq<nat>)
    requires claim.attempts >= 1
  {
    var (bound, allowed) := Tx.BindTx(db, group, claim, delivery.submission.fingerprint, delivery.expiresAt,
                                      world.bindOwnedAt, world.boundAt);
    if !allowed then (bound, [])
    else if world.checkedAt >= Min(delivery.expiresAt, claim.deadline) then
      (Finalized(bound, group, claim, Plain(Skip, "no_longer_eligible"), world), [])
    else
      var (outcome, sent) := Delivered(claim, world);
      (Finalized(bound, group, claim, outcome, world), sent)
  }

  function AfterClaim(db: Db, group: string, claim: Claim, world: World): (Db, seq<nat>)
    requires claim.attempts >= 1
  {
    if claim.event.None? then (Finalized(db, group, claim, Plain(Permanent, "invalid_event"), world), [])
    else
      match world.prepare
      case PrepareTimeout => (Finalized(db, group, claim, Plain(Retry, "preparation_timeout"), world), [])
      case Declined(outcome) => (Finalized(db, group, claim, outcome, world), [])
      case Ready(delivery) => Submit(db, group, claim, delivery, world)
  }

  lemma ClaimsHaveAttempts(db: Db, group: string, types: set<string>, settings: Settings, world: World)
    ensures var claim := Tx.ClaimTx(db, group, types, world.claimedAt, settings, world.busySweep, world.busyPick,
                                    world.token).1;
            claim.Some? ==> claim.value.attempts >= 1
  {
  }

  function ClaimedIn(db: Db, group: string, types: set<string>, settings: Settings, world: World): Option<Claim> {
    Tx.ClaimTx(db, group, types, world.claimedAt, settings, world.busySweep, world.busyPick, world.token).1
  }

  /** The tables after a pass that nothing else interrupts, whether it found work, and what it sent. */
  function PassTx(db: Db, group: string, types: set<string>, settings: Settings, world: World): (Db, bool, seq<nat>) {
    var (claimed, claim) := Tx.ClaimTx(db, group, types, world.claimedAt, settings, world.busySweep, world.busyPick,
                                       world.token);
    ClaimsHaveAttempts(db, group, types, settings, world);
    if claim.None? then (claimed, false, [])
    else
      var (after, sent) := AfterClaim(claimed, group, claim.value, world);
      (after, true, sent)
  }

  /**
   * A pass sends a request only for a claim whose bind was allowed, and then only for
   * recipients without a receipt in the claim.
   */
  lemma SendsOnlyWhatIsBound(db: Db, group: string, types: set<string>, settings: Settings, world: World, i: nat)
    requires i in PassTx(db, group, types, settings, world).2
    ensures world.prepare.Ready?
    ensures var (claimed, claim) := Tx.ClaimTx(db, group, types, world.claimedAt, settings, world.busySweep,
                                               world.busyPick, world.token);
            && claim.Some? && claim.value.event.Some? && i < world.Reach() && i !in claim.value.receipts
            && var delivery := world.prepare.delivery;
               var (bound, allowed) := Tx.BindTx(claimed, group, claim.value, delivery.submission.fingerprint,
                                                 delivery.expiresAt, world.bindOwnedAt, world.boundAt);
            && allowed && claim.value.messageId in bound.rows
            && bound.rows[claim.value.messageId].fingerprint == Some(delivery.submission.fingerprint)
  {
    hide Tx.ClaimTx, Tx.FinishTx, NextDelay;
    ClaimsHaveAttempts(db, group, types, settings, world);
    var claim := ClaimedIn(db, group, types, settings, world).value;
    hide ClaimedIn;
    var verdicts := world.Verdicts();
    FirstStopIsFirst(claim.receipts, verdicts, 0);
    var stop := FirstStop(claim.receipts, verdicts, 0);
    SubmittedHolds(claim.receipts, if stop == |verdicts| then stop else stop + 1);
    SubmittedHolds(claim.receipts, world.Reach());
  }

  class LeasedOutboxWorker {
    const repository: LeasedOutboxRepository
    const eventTypes: seq<string>
    const settings: Settings

    constructor (repository: LeasedOutboxRepository, eventTypes: seq<string>, settings: Settings)
      requires SafeTypes(eventTypes) && settings.Valid()
      ensures this.repository == repository && this.eventTypes == eventTypes && this.settings == settings
    {
      this.repository, this.eventTypes, this.settings := repository, eventTypes, settings;
    }

    method Finalize(claim: Claim, outcome: Outcome, world: World)
      requires repository.session.Valid() && claim.attempts >= 1
      modifies repository.session.messages.Values, repository.session.controls.Values
      ensures repository.session.Valid()
      ensures repository.session.Snapshot()
              == Finalized(old(repository.session.Snapshot()), repository.workerGroup, claim, outcome, world)
    {
      hide Tx.FinishTx, NextDelay;
      var delay := NextDelay(claim.attempts, outcome, world.jitter);
      assert delay.Some? by {
        DelayExists(claim.attempts, outcome, world.jitter);
      }
      var applied := repository.Finish(claim, outcome, delay.value, world.finishOwnedAt, world.finishedAt);
    }

    /** handler.deliver under its time bound, with the indices of the requests it sent. */
    method Deliver(claim: Claim, prepared: P.Delivery, world: World) returns (result: Outcome, sent: seq<nat>)
      requires world.prepare == Ready(prepared) && world.LinesUp()
      ensures (result, sent) == Delivered(claim, world)
    {
      hide PassResult, Submitted, Sender.Verdicts;
      if world.deliver.Answered? {
        result, sent := Send(prepared.submission, claim.receipts, world.deliver.responses, world.decode);
        return;
      }
      sent := Submitted(claim.receipts, world.Reach());
      result := if world.deliver.failed then Plain(Block, "handler_failure") else Plain(Unsure, "submission_timeout");
    }

    /** From the prepared delivery on. */
    method BindAndDeliver(claim: Claim, prepared: P.Delivery, world: World) returns (sent: seq<nat>)
      requires repository.session.Valid() && claim.attempts >= 1 && world.prepare == Ready(prepared) && world.LinesUp()
      modifies repository.session.messages.Values, repository.session.controls.Values
      ensures repository.session.Valid()
      ensures (repository.session.Snapshot(), sent)
              == Submit(old(repository.session.Snapshot()), repository.workerGroup, claim, prepared, world)
    {
      hide Tx.BindTx, Finalized, Delivered, Session.Valid;
      var allowed := repository.Bind(claim, prepared.submission.fingerprint, prepared.expiresAt, world.bindOwnedAt,
                                     world.boundAt);
      if !allowed {
        return [];
      }
      if world.checkedAt >= Min(prepared.expiresAt, claim.deadline) {
        Finalize(claim, Plain(Skip, "no_longer_eligible"), world);
        return [];
      }
      var result;
      result, sent := Deliver(claim, prepared, world);
      Finalize(claim, result, world);
    }

    method ProcessOne(world: World) returns (handled: bool, sent: seq<nat>)
      requires repository.session.Valid() && SafeTypes(eventTypes) && world.LinesUp()
      modifies repository.session`controls, repository.session.controls.Values, repository.session.messages.Values
      ensures repository.session.Valid()
      ensures (repository.session.Snapshot(), handled, sent)
              == PassTx(old(repository.session.Snapshot()), repository.workerGroup, TypeSet(eventTypes), settings,
                        world)
    {
      hide Tx.ClaimTx, Submit, Finalized, SafeTypes, Session.Valid;
      ClaimsHaveAttempts(repository.session.Snapshot(), repository.workerGroup, TypeSet(eventTypes), settings, world);
      var claimed := repository.Claim(eventTypes, settings, world.claimedAt, world.busySweep, world.busyPick,
                                      world.token);
      if claimed.value.None? {
        return false, [];
      }
      var claim := claimed.value.value;
      if claim.event.None? {
        Finalize(claim, Plain(Permanent, "invalid_event"), world);
        return true, [];
      }
      match world.prepare
      case PrepareTimeout =>
        Finalize(claim, Plain(Retry, "preparation_timeout"), world);
        return true, [];
      case Declined(outcome) =>
        Finalize(claim, outcome, world);
        return true, [];
      case Ready(prepared) =>
        sent := BindAndDeliver(claim, prepared, world);
        return true, sent;
    }
  }

  lemma DelayExists(attempts: nat, outcome: Outcome, jitter: Time)
    requires attempts >= 1
    ensures NextDelay(attempts, outcome, jitter).Some?
  {
  }

  // ---- a pass is a run of the protocol -----------------------------------------------

  /** actions take s to t. */
  ghost predicate Leads(s: P.State, actions: seq<P.Action>, t: P.State)
    decreases |actions|
  {
    if actions == [] then t == s
    else P.Enabled(s, actions[0]) && Leads(P.Apply(s, actions[0]), actions[1..], t)
  }

  lemma {:induction false} Chain(s: P.State, first: seq<P.Action>, t: P.State, second: seq<P.Action>, u: P.State)
    requires Leads(s, first, t) && Leads(t, second, u)
    ensures Leads(s, first + second, u)
    decreases |first|
  {
    hide P.Enabled, P.Apply;
    if first == [] {
      assert first + second == second;
    } else {
      Chain(P.Apply(s, first[0]), first[1..], t, second, u);
      assert (first + second)[1..] == first[1..] + second;
    }
  }

  lemma Single(s: P.State, a: P.Action)
    requires P.Enabled(s, a)
    ensures Leads(s, [a], P.Apply(s, a))
  {
    hide P.Enabled, P.Apply;
    assert [a][1..] == [];
    assert Leads(P.Apply(s, a), [], P.Apply(s, a));
  }

  /**
   * What a provider that holds `accepted` may answer to a request it handles at time `at`: a
   * receipt it already gave for that very request, or a new one if it remembers nothing under
   * the key; a conflict only if it did accept other content under the key.
   */
  ghost predicate Answerable(accepted: set<P.Acceptance>, request: Request, v: Verdict, at: Time) {
    match v
    case Receipt(id) =>
      || (exists a | a in accepted :: a.sent.request == request && a.receipt == id)
      || !P.Remembered(accepted, request.key, at)
    case Stop(_, code, _) =>
      code == "provider_key_conflict" ==>
        exists a | a in accepted :: a.sent.request.key == request.key && a.sent.request != request
  }

  /** The acceptances after the provider handles a request with a receipt to give. */
  function Handled(accepted: set<P.Acceptance>, sent: P.Sent, receipt: string, at: Time): set<P.Acceptance> {
    if P.Remembered(accepted, sent.request.key, at) then accepted
    else accepted + {P.Acceptance(sent, receipt, at)}
  }

  /** A receipt is answerable exactly when handling the request first makes it an honest answer. */
  lemma AnswerableExactly(accepted: set<P.Acceptance>, sent: P.Sent, id: string, at: Time)
    ensures Answerable(accepted, sent.request, Receipt(id), at)
            <==> P.Honest(Handled(accepted, sent, id, at), sent.request, Receipt(id))
  {
    if !P.Remembered(accepted, sent.request.key, at) {
      assert P.Acceptance(sent, id, at) in Handled(accepted, sent, id, at);
    }
  }

  /** The requests a delivery puts on the wire between two indices, and which of them are new to the provider. */
  function Posted(messageId: Id, requests: seq<Request>, completed: Receipts, at: nat -> Time, from: nat, upTo: nat)
    : set<P.Sent>
    requires upTo <= |requests|
  {
    set i | from <= i < upTo && i !in completed :: P.Sent(messageId, requests[i], at(i))
  }

  function NewlyAccepted(accepted: set<P.Acceptance>, messageId: Id, requests: seq<Request>, completed: Receipts,
                         verdicts: seq<Verdict>, at: nat -> Time, from: nat, upTo: nat): set<P.Acceptance>
    requires upTo <= |requests|
  {
    set i | from <= i < upTo && i < |verdicts| && i !in completed && verdicts[i].Receipt?
            && !P.Remembered(accepted, requests[i].key, at(i)) ::
      P.Acceptance(P.Sent(messageId, requests[i], at(i)), verdicts[i].id, at(i))
  }

  /** Every answer of the delivery from index `from` on is one the provider may give. */
  ghost predicate AllAnswerable(accepted: set<P.Acceptance>, requests: seq<Request>, completed: Receipts,
                                verdicts: seq<Verdict>, at: nat -> Time, from: nat)
    requires |verdicts| <= |requests|
  {
    forall i | from <= i < |verdicts| && i !in completed :: Answerable(accepted, requests[i], verdicts[i], at(i))
  }

  predicate DistinctKeys(requests: seq<Request>) {
    forall i, j | 0 <= i < j < |requests| :: requests[i].key != requests[j].key
  }

  /** Only w, the wire, the provider and the clock moved. */
  predicate OnlySent(s: P.State, w: P.Worker, t: P.State) {
    && w in t.workers && s.clock <= t.clock
    && t == s.(workers := s.workers[w := t.workers[w]], wire := t.wire, accepted := t.accepted, clock := t.clock)
  }

  lemma OnlySentChain(s: P.State, w: P.Worker, mid: P.State, t: P.State)
    requires OnlySent(s, w, mid) && OnlySent(mid, w, t)
    ensures OnlySent(s, w, t)
  {
  }

  /** The worker is about to turn to request `next`, on claim, delivery and settings of p. */
  predicate AtRequest(s: P.State, w: P.Worker, p: P.Phase, next: nat, receipts: Receipts) {
    && p.Sending? && w in s.workers
    && s.workers[w] == p.(next := next, receipts := receipts, waiting := false)
  }

  lemma SkipPath(s: P.State, w: P.Worker) returns (t: P.State)
    requires w in s.workers && s.workers[w].Sending? && !s.workers[w].waiting
    requires s.workers[w].next < |s.workers[w].delivery.submission.requests|
    requires s.workers[w].next in s.workers[w].receipts
    ensures Leads(s, [P.SkipCompleted(w)], t) && OnlySent(s, w, t) && t.clock == s.clock
    ensures t.wire == s.wire && t.accepted == s.accepted
    ensures AtRequest(t, w, s.workers[w], s.workers[w].next + 1, s.workers[w].receipts)
  {
    t := P.Apply(s, P.SkipCompleted(w));
    Single(s, P.SkipCompleted(w));
  }

  /** The request leaves at time `at`. */
  lemma TransmitPath(s: P.State, w: P.Worker, at: Time) returns (actions: seq<P.Action>, t: P.State)
    requires w in s.workers && s.workers[w].Sending? && !s.workers[w].waiting && s.clock <= at
    requires s.workers[w].next < |s.workers[w].delivery.submission.requests|
    requires s.workers[w].next !in s.workers[w].receipts
    ensures Leads(s, actions, t) && OnlySent(s, w, t) && t.clock == at && t.accepted == s.accepted
    ensures var p := s.workers[w];
            && t.workers[w] == p.(waiting := true)
            && t.wire == s.wire + {P.Sent(p.claim.messageId, p.delivery.submission.requests[p.next], at)}
  {
    var later := P.Apply(s, P.Tick(at));
    Single(s, P.Tick(at));
    t := P.Apply(later, P.Transmit(w));
    Single(later, P.Transmit(w));
    Chain(s, [P.Tick(at)], later, [P.Transmit(w)], t);
    actions := [P.Tick(at)] + [P.Transmit(w)];
  }

  lemma HandlePath(s: P.State, sent: P.Sent, receipt: string) returns (t: P.State)
    requires sent in s.wire
    ensures Leads(s, [P.Process(sent, receipt)], t)
    ensures t == s.(accepted := Handled(s.accepted, sent, receipt, s.clock))
  {
    t := P.Apply(s, P.Process(sent, receipt));
    Single(s, P.Process(sent, receipt));
  }

  lemma RespondPath(s: P.State, w: P.Worker, verdict: Verdict) returns (t: P.State)
    requires w in s.workers && s.workers[w].Sending? && s.workers[w].waiting
    requires s.workers[w].next < |s.workers[w].delivery.submission.requests|
    requires P.Honest(s.accepted, s.workers[w].delivery.submission.requests[s.workers[w].next], verdict)
    ensures Leads(s, [P.Respond(w, verdict)], t) && OnlySent(s, w, t) && t.clock == s.clock
    ensures t.wire == s.wire && t.accepted == s.accepted
    ensures var p := s.workers[w];
            if verdict.Receipt? then AtRequest(t, w, p, p.next + 1, p.receipts[p.next := verdict.id])
            else t.workers[w] == P.Finishing(p.claim, Stopped(verdict, p.receipts), p.settings)
  {
    hide P.Honest;
    t := P.Apply(s, P.Respond(w, verdict));
    Single(s, P.Respond(w, verdict));
  }

  /** One request, taken by the provider and answered with a receipt. */
  lemma ReceiptPath(s: P.State, w: P.Worker, id: string, at: Time) returns (actions: seq<P.Action>, t: P.State)
    requires w in s.workers && s.workers[w].Sending? && !s.workers[w].waiting && s.clock <= at
    requires s.workers[w].next < |s.workers[w].delivery.submission.requests|
    requires s.workers[w].next !in s.workers[w].receipts
    requires Answerable(s.accepted, s.workers[w].delivery.submission.requests[s.workers[w].next], Receipt(id), at)
    ensures Leads(s, actions, t) && OnlySent(s, w, t) && t.clock == at
    ensures var p := s.workers[w];
            var sent := P.Sent(p.claim.messageId, p.delivery.submission.requests[p.next], at);
            && AtRequest(t, w, p, p.next + 1, p.receipts[p.next := id])
            && t.wire == s.wire + {sent} && t.accepted == Handled(s.accepted, sent, id, at)
  {
    var p := s.workers[w];
    var sent := P.Sent(p.claim.messageId, p.delivery.submission.requests[p.next], at);
    AnswerableExactly(s.accepted, sent, id, at);
    hide Leads, Answerable, Handled, P.Honest;
    var mid, handled;
    actions, mid := TransmitPath(s, w, at);
    handled := HandlePath(mid, sent, id);
    Chain(s, actions, mid, [P.Process(sent, id)], handled);
    actions := actions + [P.Process(sent, id)];
    t := RespondPath(handled, w, Receipt(id));
    Chain(s, actions, handled, [P.Respond(w, Receipt(id))], t);
    actions := actions + [P.Respond(w, Receipt(id))];
  }

  /** One request, answered by the outcome that ends the delivery. */
  lemma StopPath(s: P.State, w: P.Worker, stop: Verdict, at: Time) returns (actions: seq<P.Action>, t: P.State)
    requires w in s.workers && s.workers[w].Sending? && !s.workers[w].waiting && s.clock <= at
    requires s.workers[w].next < |s.workers[w].delivery.submission.requests|
    requires s.workers[w].next !in s.workers[w].receipts
    requires stop.Stop? && stop.kind in {Retry, Permanent, Unsure, Block}
    requires Answerable(s.accepted, s.workers[w].delivery.submission.requests[s.workers[w].next], stop, at)
    ensures Leads(s, actions, t) && OnlySent(s, w, t) && t.clock == at && t.accepted == s.accepted
    ensures var p := s.workers[w];
            && t.workers[w] == P.Finishing(p.claim, Stopped(stop, p.receipts), p.settings)
            && t.wire == s.wire + {P.Sent(p.claim.messageId, p.delivery.submission.requests[p.next], at)}
  {
    assert P.Honest(s.accepted, s.workers[w].delivery.submission.requests[s.workers[w].next], stop);
    hide Leads, Answerable, P.Honest;
    var mid;
    actions, mid := TransmitPath(s, w, at);
    t := RespondPath(mid, w, stop);
    Chain(s, actions, mid, [P.Respond(w, stop)], t);
    actions := actions + [P.Respond(w, stop)];
  }

  ghost predicate Steady(at: nat -> Time) {
    forall i: nat, j: nat | i <= j :: at(i) <= at(j)
  }

  /** What has been accepted up to an index does not touch the keys from there on. */
  lemma LaterKeysStay(accepted: set<P.Acceptance>, messageId: Id, requests: seq<Request>, completed: Receipts,
                      verdicts: seq<Verdict>, at: nat -> Time, from: nat, upTo: nat, i: nat)
    requires DistinctKeys(requests) && upTo <= i < |requests|
    ensures P.Remembered(accepted + NewlyAccepted(accepted, messageId, requests, completed, verdicts, at, from, upTo),
                         requests[i].key, at(i))
            <==> P.Remembered(accepted, requests[i].key, at(i))
    ensures i < |verdicts| && Answerable(accepted, requests[i], verdicts[i], at(i)) ==>
              Answerable(accepted + NewlyAccepted(accepted, messageId, requests, completed, verdicts, at, from, upTo),
                         requests[i], verdicts[i], at(i))
  {
    var more := NewlyAccepted(accepted, messageId, requests, completed, verdicts, at, from, upTo);
    forall a | a in more ensures a.sent.request.key != requests[i].key {
    }
    hide NewlyAccepted;
    assert forall a | a in accepted :: a in accepted + more;
  }

  lemma PostedSnoc(messageId: Id, requests: seq<Request>, completed: Receipts, at: nat -> Time, from: nat, upTo: nat)
    requires from <= upTo < |requests|
    ensures Posted(messageId, requests, completed, at, from, upTo + 1)
            == Posted(messageId, requests, completed, at, from, upTo)
               + if upTo in completed then {} else {P.Sent(messageId, requests[upTo], at(upTo))}
  {
  }

  lemma NewlyAcceptedSnoc(accepted: set<P.Acceptance>, messageId: Id, requests: seq<Request>, completed: Receipts,
                          verdicts: seq<Verdict>, at: nat -> Time, from: nat, upTo: nat)
    requires from <= upTo < |requests|
    ensures var before := NewlyAccepted(accepted, messageId, requests, completed, verdicts, at, from, upTo);
            NewlyAccepted(accepted, messageId, requests, completed, verdicts, at, from, upTo + 1)
            == if upTo < |verdicts| && upTo !in completed && verdicts[upTo].Receipt?
                  && !P.Remembered(accepted, requests[upTo].key, at(upTo))
               then before + {P.Acceptance(P.Sent(messageId, requests[upTo], at(upTo)), verdicts[upTo].id, at(upTo))}
               else before
  {
    hide P.Remembered;
  }

  /** The state of a delivery that asked the requests in from..to and got a receipt for each. */
  ghost predicate Walked(s: P.State, w: P.Worker, t: P.State, completed: Receipts, verdicts: seq<Verdict>,
                         at: nat -> Time, upTo: nat)
    requires w in s.workers && s.workers[w].Sending?
    requires upTo <= |verdicts| <= |s.workers[w].delivery.submission.requests|
  {
    var p := s.workers[w];
    var id, requests := p.claim.messageId, p.delivery.submission.requests;
    && OnlySent(s, w, t) && AtRequest(t, w, p, upTo, Collected(completed, verdicts, upTo)) && t.clock <= at(upTo)
    && t.wire == s.wire + Posted(id, requests, completed, at, p.next, upTo)
    && t.accepted == s.accepted + NewlyAccepted(s.accepted, id, requests, completed, verdicts, at, p.next, upTo)
  }

  /** A delivery about to start with request `next`, whose answers the provider may give. */
  ghost predicate Starting(s: P.State, w: P.Worker, completed: Receipts, verdicts: seq<Verdict>, at: nat -> Time) {
    && w in s.workers && s.workers[w].Sending? && !s.workers[w].waiting
    && var p := s.workers[w];
    && p.next == 0 && p.receipts == completed && |verdicts| <= |p.delivery.submission.requests|
    && DistinctKeys(p.delivery.submission.requests) && Steady(at) && s.clock <= at(0)
    && AllAnswerable(s.accepted, p.delivery.submission.requests, completed, verdicts, at, 0)
  }

  lemma NothingWalked(s: P.State, w: P.Worker, completed: Receipts, verdicts: seq<Verdict>, at: nat -> Time)
    requires Starting(s, w, completed, verdicts, at)
    ensures Leads(s, [], s) && Walked(s, w, s, completed, verdicts, at, 0)
  {
    hide Answerable;
  }

  lemma WalkSkip(s: P.State, w: P.Worker, mid: P.State, completed: Receipts, verdicts: seq<Verdict>, at: nat -> Time,
                 i: nat)
    returns (t: P.State)
    requires Starting(s, w, completed, verdicts, at) && i < |verdicts| && i in completed
    requires Walked(s, w, mid, completed, verdicts, at, i)
    ensures Leads(mid, [P.SkipCompleted(w)], t) && Walked(s, w, t, completed, verdicts, at, i + 1)
  {
    var p := s.workers[w];
    var id, requests := p.claim.messageId, p.delivery.submission.requests;
    CollectedHolds(completed, verdicts, i);
    PostedSnoc(id, requests, completed, at, 0, i);
    NewlyAcceptedSnoc(s.accepted, id, requests, completed, verdicts, at, 0, i);
    assert at(i) <= at(i + 1);
    hide Leads, Posted, NewlyAccepted, AllAnswerable, DistinctKeys, Steady, OnlySent;
    t := SkipPath(mid, w);
    OnlySentChain(s, w, mid, t);
  }

  /** Where a walked delivery stands before it asks the next request. */
  lemma WalkedStands(s: P.State, w: P.Worker, mid: P.State, completed: Receipts, verdicts: seq<Verdict>,
                     at: nat -> Time, i: nat)
    requires Starting(s, w, completed, verdicts, at) && i <= |verdicts| && Walked(s, w, mid, completed, verdicts, at, i)
    requires i < |s.workers[w].delivery.submission.requests| && i !in completed
    ensures AtRequest(mid, w, s.workers[w], i, Collected(completed, verdicts, i)) && mid.clock <= at(i) <= at(i + 1)
    ensures i !in Collected(completed, verdicts, i)
  {
    CollectedHolds(completed, verdicts, i);
    assert at(i) <= at(i + 1);
    hide Collected, Posted, NewlyAccepted, AllAnswerable, DistinctKeys, OnlySent;
  }

  lemma WalkedAnswers(s: P.State, w: P.Worker, mid: P.State, completed: Receipts, verdicts: seq<Verdict>,
                      at: nat -> Time, i: nat)
    requires Starting(s, w, completed, verdicts, at) && i < |verdicts| && Walked(s, w, mid, completed, verdicts, at, i)
    requires i !in completed
    ensures var request := s.workers[w].delivery.submission.requests[i];
            && Answerable(mid.accepted, request, verdicts[i], at(i))
            && (P.Remembered(mid.accepted, request.key, at(i)) <==> P.Remembered(s.accepted, request.key, at(i)))
  {
    var p := s.workers[w];
    LaterKeysStay(s.accepted, p.claim.messageId, p.delivery.submission.requests, completed, verdicts, at, 0, i, i);
    assert Answerable(s.accepted, p.delivery.submission.requests[i], verdicts[i], at(i));
    hide Answerable, P.Remembered, NewlyAccepted, DistinctKeys, AllAnswerable, Steady, Posted, Collected, OnlySent,
        AtRequest;
  }

  /** One receipt more. */
  lemma WalkedFurther(s: P.State, w: P.Worker, mid: P.State, t: P.State, completed: Receipts, verdicts: seq<Verdict>,
                      at: nat -> Time, i: nat)
    requires w in s.workers && s.workers[w].Sending? && s.workers[w].next == 0
    requires i < |verdicts| <= |s.workers[w].delivery.submission.requests| && i !in completed && verdicts[i].Receipt?
    requires Walked(s, w, mid, completed, verdicts, at, i) && at(i) <= at(i + 1)
    requires var p, request := s.workers[w], s.workers[w].delivery.submission.requests[i];
             var sent := P.Sent(p.claim.messageId, request, at(i));
             && (P.Remembered(mid.accepted, request.key, at(i)) <==> P.Remembered(s.accepted, request.key, at(i)))
             && OnlySent(mid, w, t) && t.clock == at(i) && t.wire == mid.wire + {sent}
             && AtRequest(t, w, mid.workers[w], i + 1, Collected(completed, verdicts, i)[i := verdicts[i].id])
             && t.accepted == Handled(mid.accepted, sent, verdicts[i].id, at(i))
    ensures Walked(s, w, t, completed, verdicts, at, i + 1)
  {
    var p := s.workers[w];
    var id, requests := p.claim.messageId, p.delivery.submission.requests;
    PostedSnoc(id, requests, completed, at, 0, i);
    NewlyAcceptedSnoc(s.accepted, id, requests, completed, verdicts, at, 0, i);
    CollectedSnoc(completed, verdicts, i);
    hide Collected, Posted, NewlyAccepted, P.Remembered;
  }

  lemma WalkAsk(s: P.State, w: P.Worker, mid: P.State, completed: Receipts, verdicts: seq<Verdict>, at: nat -> Time,
                i: nat)
    returns (actions: seq<P.Action>, t: P.State)
    requires Starting(s, w, completed, verdicts, at) && i < |verdicts| && i !in completed && verdicts[i].Receipt?
    requires Walked(s, w, mid, completed, verdicts, at, i)
    ensures Leads(mid, actions, t) && Walked(s, w, t, completed, verdicts, at, i + 1)
  {
    WalkedStands(s, w, mid, completed, verdicts, at, i);
    WalkedAnswers(s, w, mid, completed, verdicts, at, i);
    hide Leads, Walked, Answerable, P.Remembered, Collected, Handled, AllAnswerable, DistinctKeys, Steady, OnlySent;
    actions, t := ReceiptPath(mid, w, verdicts[i].id, at(i));
    WalkedFurther(s, w, mid, t, completed, verdicts, at, i);
  }

  lemma CollectedSnoc(completed: Receipts, verdicts: seq<Verdict>, i: nat)
    requires i < |verdicts| && i !in completed && verdicts[i].Receipt?
    ensures Collected(completed, verdicts, i + 1) == Collected(completed, verdicts, i)[i := verdicts[i].id]
  {
  }

  lemma WalkStep(s: P.State, w: P.Worker, mid: P.State, completed: Receipts, verdicts: seq<Verdict>, at: nat -> Time,
                 i: nat)
    returns (actions: seq<P.Action>, t: P.State)
    requires Starting(s, w, completed, verdicts, at) && i < |verdicts| && Resolved(completed, verdicts, i)
    requires Walked(s, w, mid, completed, verdicts, at, i)
    ensures Leads(mid, actions, t) && Walked(s, w, t, completed, verdicts, at, i + 1)
  {
    hide Starting, Walked, Leads;
    if i in completed {
      t := WalkSkip(s, w, mid, completed, verdicts, at, i);
      actions := [P.SkipCompleted(w)];
    } else {
      actions, t := WalkAsk(s, w, mid, completed, verdicts, at, i);
    }
  }

  lemma {:induction false} WalkPath(s: P.State, w: P.Worker, completed: Receipts, verdicts: seq<Verdict>,
                                    at: nat -> Time, upTo: nat)
    returns (actions: seq<P.Action>, t: P.State)
    requires Starting(s, w, completed, verdicts, at) && upTo <= |verdicts|
    requires forall i | 0 <= i < upTo :: Resolved(completed, verdicts, i)
    ensures Leads(s, actions, t) && Walked(s, w, t, completed, verdicts, at, upTo)
    decreases upTo
  {
    if upTo == 0 {
      NothingWalked(s, w, completed, verdicts, at);
      actions, t := [], s;
    } else {
      hide Starting, Walked, Leads;
      var mid, last;
      actions, mid := WalkPath(s, w, completed, verdicts, at, upTo - 1);
      last, t := WalkStep(s, w, mid, completed, verdicts, at, upTo - 1);
      Chain(s, actions, mid, last, t);
      actions := actions + last;
    }
  }

  lemma CompletePath(s: P.State, w: P.Worker) returns (t: P.State)
    requires w in s.workers && s.workers[w].Sending? && !s.workers[w].waiting
    requires s.workers[w].next == |s.workers[w].delivery.submission.requests|
    ensures Leads(s, [P.Complete(w)], t) && OnlySent(s, w, t)
    ensures t.wire == s.wire && t.accepted == s.accepted && t.clock == s.clock
    ensures t.workers[w] == P.Finishing(s.workers[w].claim,
                                        Outcome(Accepted, "provider_accepted", 0, s.workers[w].receipts),
                                        s.workers[w].settings)
  {
    t := P.Apply(s, P.Complete(w));
    Single(s, P.Complete(w));
  }

  lemma AbortPath(s: P.State, w: P.Worker, failed: bool) returns (t: P.State)
    requires w in s.workers && s.workers[w].Sending?
    ensures Leads(s, [P.Abort(w, failed)], t) && OnlySent(s, w, t)
    ensures t.wire == s.wire && t.accepted == s.accepted && t.clock == s.clock
    ensures t.workers[w] == P.Finishing(s.workers[w].claim,
                                        if failed then Plain(Block, "handler_failure")
                                        else Plain(Unsure, "submission_timeout"),
                                        s.workers[w].settings)
  {
    t := P.Apply(s, P.Abort(w, failed));
    Single(s, P.Abort(w, failed));
  }

  /** The end of a delivery that got to the requests before `upTo`, and its outcome. */
  ghost predicate Ended(s: P.State, w: P.Worker, t: P.State, completed: Receipts, verdicts: seq<Verdict>,
                        at: nat -> Time, upTo: nat, outcome: Outcome)
    requires w in s.workers && s.workers[w].Sending? && upTo <= |s.workers[w].delivery.submission.requests|
  {
    var p := s.workers[w];
    var id, requests := p.claim.messageId, p.delivery.submission.requests;
    && OnlySent(s, w, t) && t.workers[w] == P.Finishing(p.claim, outcome, p.settings) && t.clock <= at(upTo)
    && t.wire == s.wire + Posted(id, requests, completed, at, 0, upTo)
    && t.accepted == s.accepted + NewlyAccepted(s.accepted, id, requests, completed, verdicts, at, 0, upTo)
  }

  /** The requests a pass gets to. */
  function PassReach(completed: Receipts, verdicts: seq<Verdict>): nat {
    FirstStopIsFirst(completed, verdicts, 0);
    var stop := FirstStop(completed, verdicts, 0);
    if stop == |verdicts| then stop else stop + 1
  }

  /** Where a pass ends, and with what outcome. */
  lemma PassEnds(completed: Receipts, verdicts: seq<Verdict>)
    ensures var stop := FirstStop(completed, verdicts, 0);
            && stop <= |verdicts| && (forall i | 0 <= i < stop :: Resolved(completed, verdicts, i))
            && if stop == |verdicts| then
                 && PassReach(completed, verdicts) == stop
                 && PassResult(completed, verdicts).0
                    == Outcome(Accepted, "provider_accepted", 0, Collected(completed, verdicts, stop))
               else
                 && !Resolved(completed, verdicts, stop) && PassReach(completed, verdicts) == stop + 1
                 && PassResult(completed, verdicts).0 == Stopped(verdicts[stop], Collected(completed, verdicts, stop))
  {
    FirstStopIsFirst(completed, verdicts, 0);
  }

  /** The sender's loop, with every answer, is a walk followed by completion or by a stop. */
  lemma SendPath(s: P.State, w: P.Worker, completed: Receipts, verdicts: seq<Verdict>, at: nat -> Time)
    returns (actions: seq<P.Action>, t: P.State)
    requires Starting(s, w, completed, verdicts, at)
    requires |verdicts| == |s.workers[w].delivery.submission.requests|
    requires forall i | 0 <= i < |verdicts| && verdicts[i].Stop? ::
               verdicts[i].kind in {Retry, Permanent, Unsure, Block}
    ensures Leads(s, actions, t)
    ensures PassReach(completed, verdicts) <= |verdicts|
    ensures Ended(s, w, t, completed, verdicts, at, PassReach(completed, verdicts), PassResult(completed, verdicts).0)
  {
    var stop := FirstStop(completed, verdicts, 0);
    PassEnds(completed, verdicts);
    assert stop < |verdicts| ==> verdicts[stop].kind in {Retry, Permanent, Unsure, Block};
    hide *;
    var mid, last;
    actions, mid := WalkPath(s, w, completed, verdicts, at, stop);
    if stop == |verdicts| {
      last, t := CompleteAfterWalk(s, w, mid, completed, verdicts, at);
    } else {
      last, t := StopAfterWalk(s, w, mid, completed, verdicts, at, stop);
    }
    Chain(s, actions, mid, last, t);
    actions := actions + last;
  }

  lemma CompleteAfterWalk(s: P.State, w: P.Worker, mid: P.State, completed: Receipts, verdicts: seq<Verdict>,
                          at: nat -> Time)
    returns (actions: seq<P.Action>, t: P.State)
    requires Starting(s, w, completed, verdicts, at)
    requires |verdicts| == |s.workers[w].delivery.submission.requests|
    requires Walked(s, w, mid, completed, verdicts, at, |verdicts|)
    ensures Leads(mid, actions, t)
    ensures Ended(s, w, t, completed, verdicts, at, |verdicts|,
                  Outcome(Accepted, "provider_accepted", 0, Collected(completed, verdicts, |verdicts|)))
  {
    hide Leads, Posted, NewlyAccepted, Collected;
    t := CompletePath(mid, w);
    actions := [P.Complete(w)];
  }

  lemma StopAfterWalk(s: P.State, w: P.Worker, mid: P.State, completed: Receipts, verdicts: seq<Verdict>,
                      at: nat -> Time, stop: nat)
    returns (actions: seq<P.Action>, t: P.State)
    requires Starting(s, w, completed, verdicts, at) && stop < |verdicts| && !Resolved(completed, verdicts, stop)
    requires verdicts[stop].kind in {Retry, Permanent, Unsure, Block}
    requires Walked(s, w, mid, completed, verdicts, at, stop)
    ensures Leads(mid, actions, t)
    ensures Ended(s, w, t, completed, verdicts, at, stop + 1,
                  Stopped(verdicts[stop], Collected(completed, verdicts, stop)))
  {
    WalkedStands(s, w, mid, completed, verdicts, at, stop);
    WalkedAnswers(s, w, mid, completed, verdicts, at, stop);
    hide Leads, Posted, NewlyAccepted, AllAnswerable, DistinctKeys, Steady, Answerable, P.Remembered, Collected,
         OnlySent;
    actions, t := StopPath(mid, w, verdicts[stop], at(stop));
    OnlySentChain(s, w, mid, t);
    PostedSnoc(s.workers[w].claim.messageId, s.workers[w].delivery.submission.requests, completed, at, 0, stop);
    NewlyAcceptedSnoc(s.accepted, s.workers[w].claim.messageId, s.workers[w].delivery.submission.requests, completed,
                      verdicts, at, 0, stop);
  }

  /** An interrupted delivery is a walk, perhaps one more transmission, and an abort. */
  lemma InterruptedPath(s: P.State, w: P.Worker, completed: Receipts, verdicts: seq<Verdict>, at: nat -> Time,
                        underWay: bool, failed: bool)
    returns (actions: seq<P.Action>, t: P.State)
    requires Starting(s, w, completed, verdicts, at)
    requires forall i | 0 <= i < |verdicts| :: Resolved(completed, verdicts, i)
    requires |verdicts| + (if underWay then 1 else 0) <= |s.workers[w].delivery.submission.requests|
    ensures Leads(s, actions, t)
    ensures Ended(s, w, t, completed, verdicts, at, |verdicts| + (if underWay then 1 else 0),
                  if failed then Plain(Block, "handler_failure") else Plain(Unsure, "submission_timeout"))
  {
    var n := |verdicts|;
    var mid, more, done;
    actions, mid := WalkPath(s, w, completed, verdicts, at, n);
    more, done := UnderWayPath(s, w, mid, completed, verdicts, at, underWay);
    hide Walked, Starting, Leads, Posted, NewlyAccepted, OnlySent;
    Chain(s, actions, mid, more, done);
    actions := actions + more;
    t := AbortPath(done, w, failed);
    OnlySentChain(s, w, done, t);
    Chain(s, actions, done, [P.Abort(w, failed)], t);
    actions := actions + [P.Abort(w, failed)];
  }

  lemma UnderWayPath(s: P.State, w: P.Worker, mid: P.State, completed: Receipts, verdicts: seq<Verdict>,
                     at: nat -> Time, underWay: bool)
    returns (actions: seq<P.Action>, t: P.State)
    requires Starting(s, w, completed, verdicts, at) && Walked(s, w, mid, completed, verdicts, at, |verdicts|)
    requires |verdicts| + (if underWay then 1 else 0) <= |s.workers[w].delivery.submission.requests|
    ensures Leads(mid, actions, t) && OnlySent(s, w, t)
    ensures var p, upTo := s.workers[w], |verdicts| + (if underWay then 1 else 0);
            var id, requests := p.claim.messageId, p.delivery.submission.requests;
            && t.workers[w].Sending? && t.workers[w].claim == p.claim && t.workers[w].settings == p.settings
            && t.clock <= at(upTo) && t.wire == s.wire + Posted(id, requests, completed, at, 0, upTo)
            && t.accepted == s.accepted + NewlyAccepted(s.accepted, id, requests, completed, verdicts, at, 0, upTo)
  {
    if underWay {
      actions, t := LastTransmission(s, w, mid, completed, verdicts, at);
    } else {
      hide Posted, NewlyAccepted, Collected, Starting;
      actions, t := [], mid;
    }
  }

  lemma LastTransmission(s: P.State, w: P.Worker, mid: P.State, completed: Receipts, verdicts: seq<Verdict>,
                         at: nat -> Time)
    returns (actions: seq<P.Action>, t: P.State)
    requires Starting(s, w, completed, verdicts, at) && Walked(s, w, mid, completed, verdicts, at, |verdicts|)
    requires |verdicts| < |s.workers[w].delivery.submission.requests|
    ensures Leads(mid, actions, t) && OnlySent(s, w, t)
    ensures var p, upTo := s.workers[w], |verdicts| + 1;
            var id, requests := p.claim.messageId, p.delivery.submission.requests;
            && t.workers[w].Sending? && t.workers[w].claim == p.claim && t.workers[w].settings == p.settings
            && t.clock <= at(upTo) && t.wire == s.wire + Posted(id, requests, completed, at, 0, upTo)
            && t.accepted == s.accepted + NewlyAccepted(s.accepted, id, requests, completed, verdicts, at, 0, upTo)
  {
    var p, n := s.workers[w], |verdicts|;
    assert at(n) <= at(n + 1);
    if n !in completed {
      WalkedStands(s, w, mid, completed, verdicts, at, n);
    }
    hide Leads, Posted, NewlyAccepted, P.Remembered, Collected, Starting, OnlySent;
    if n !in completed {
      actions, t := TransmitPath(mid, w, at(n));
      OnlySentChain(s, w, mid, t);
    } else {
      NothingMore(mid);
      actions, t := [], mid;
    }
    PostedSnoc(p.claim.messageId, p.delivery.submission.requests, completed, at, 0, n);
    NewlyAcceptedSnoc(s.accepted, p.claim.messageId, p.delivery.submission.requests, completed, verdicts, at, 0, n);
  }

  lemma NothingMore(s: P.State)
    ensures Leads(s, [], s)
  {
  }

  predicate Draws(claim: Claim, settings: Settings, world: World) {
    claim.attempts >= 1 && 0 <= world.jitter <= RetryCeiling(claim.attempts, settings)
  }

  lemma FinishPath(s: P.State, w: P.Worker, world: World) returns (actions: seq<P.Action>, t: P.State)
    requires w in s.workers && s.workers[w].Finishing? && Draws(s.workers[w].claim, s.workers[w].settings, world)
    requires s.clock <= world.finishedAt && world.finishOwnedAt <= world.finishedAt
    ensures Leads(s, actions, t)
    ensures t.db == Finalized(s.db, P.GROUP, s.workers[w].claim, s.workers[w].outcome, world)
    ensures t.workers == s.workers - {w} && t.accepted == s.accepted && t.wire == s.wire
  {
    var tick, finish := P.Tick(world.finishedAt), P.Finish(w, world.finishOwnedAt, world.finishedAt, world.jitter);
    var later := P.Apply(s, tick);
    Single(s, tick);
    hide Tx.FinishTx, RetryCeiling, NextDelay;
    t := P.Apply(later, finish);
    Single(later, finish);
    Chain(s, [tick], later, [finish], t);
    actions := [tick] + [finish];
  }

  /**
   * What a handler and a provider may do for this claim: the answers are ones the provider may
   * give at the times it is asked, and an interrupted delivery had a receipt for each request
   * before the interruption.
   */
  ghost predicate Plausible(accepted: set<P.Acceptance>, claim: Claim, world: World) {
    claim.event.Some? ==>
      match world.prepare
      case PrepareTimeout => true
      case Declined(outcome) => outcome.kind in {Permanent, Skip, Block, Retry} && outcome.receipts == map[]
      case Ready(delivery) =>
        && WellFormed(delivery.submission, claim.event.value.eventId) && world.LinesUp()
        && AllAnswerable(accepted, delivery.submission.requests, claim.receipts, world.Verdicts(), world.askedAt, 0)
        && (world.deliver.Interrupted? ==>
              forall i | 0 <= i < |world.Verdicts()| :: Resolved(claim.receipts, world.Verdicts(), i))
  }

  /** A first delivery: whatever a provider that remembers none of its keys answers is covered. */
  lemma FirstDeliveriesArePlausible(accepted: set<P.Acceptance>, claim: Claim, world: World)
    requires claim.event.Some? && world.prepare.Ready? && world.LinesUp() && world.deliver.Answered?
    requires WellFormed(world.prepare.delivery.submission, claim.event.value.eventId)
    requires forall a | a in accepted :: a.sent.request.key.deliveryId != claim.event.value.eventId
    requires forall i | 0 <= i < |world.Verdicts()| && world.Verdicts()[i].Stop? ::
               world.Verdicts()[i].code != "provider_key_conflict"
    ensures Plausible(accepted, claim, world)
  {
    hide PassResult, Classify;
  }

  lemma IneligiblePath(s: P.State, w: P.Worker) returns (t: P.State)
    requires w in s.workers && s.workers[w].Bound?
    ensures Leads(s, [P.Ineligible(w)], t) && OnlySent(s, w, t)
    ensures t.wire == s.wire && t.accepted == s.accepted && t.clock == s.clock
    ensures t.workers[w] == P.Finishing(s.workers[w].claim, Plain(Skip, "no_longer_eligible"), s.workers[w].settings)
  {
    t := P.Apply(s, P.Ineligible(w));
    Single(s, P.Ineligible(w));
  }

  lemma StartPath(s: P.State, w: P.Worker) returns (t: P.State)
    requires w in s.workers && s.workers[w].Bound?
    ensures Leads(s, [P.StartSend(w)], t) && OnlySent(s, w, t)
    ensures t.wire == s.wire && t.accepted == s.accepted && t.clock == s.clock
    ensures var p, p' := s.workers[w], t.workers[w];
            && p'.Sending? && !p'.waiting && p'.next == 0 && p'.receipts == p.claim.receipts
            && p'.claim == p.claim && p'.delivery == p.delivery && p'.settings == p.settings
  {
    t := P.Apply(s, P.StartSend(w));
    Single(s, P.StartSend(w));
  }

  /** The requests a pass puts on the wire, and the submissions among them the provider takes as new. */
  function PassPosts(claim: Claim, world: World, sent: seq<nat>): set<P.Sent> {
    if !world.prepare.Ready? then {}
    else
      var requests := world.prepare.delivery.submission.requests;
      set i | i in sent && i < |requests| :: P.Sent(claim.messageId, requests[i], world.askedAt(i))
  }

  function PassAccepted(accepted: set<P.Acceptance>, claim: Claim, world: World, sent: seq<nat>): set<P.Acceptance> {
    if !world.prepare.Ready? then {}
    else
      var requests, verdicts := world.prepare.delivery.submission.requests, world.Verdicts();
      set i | i in sent && i < |requests| && i < |verdicts| && verdicts[i].Receipt?
              && !P.Remembered(accepted, requests[i].key, world.askedAt(i)) ::
        P.Acceptance(P.Sent(claim.messageId, requests[i], world.askedAt(i)), verdicts[i].id, world.askedAt(i))
  }

  /** What a pass leaves on the wire and with the provider. */
  predicate Traffic(s: P.State, t: P.State, claim: Claim, world: World, sent: seq<nat>) {
    && t.wire == s.wire + PassPosts(claim, world, sent)
    && t.accepted == s.accepted + PassAccepted(s.accepted, claim, world, sent)
  }

  lemma TrafficOf(accepted: set<P.Acceptance>, claim: Claim, world: World, upTo: nat)
    requires world.prepare.Ready? && upTo <= |world.prepare.delivery.submission.requests|
    ensures var requests, sent := world.prepare.delivery.submission.requests, Submitted(claim.receipts, upTo);
            && Posted(claim.messageId, requests, claim.receipts, world.askedAt, 0, upTo)
               == PassPosts(claim, world, sent)
            && NewlyAccepted(accepted, claim.messageId, requests, claim.receipts, world.Verdicts(), world.askedAt, 0,
                             upTo)
               == PassAccepted(accepted, claim, world, sent)
  {
    SubmittedHolds(claim.receipts, upTo);
    hide Submitted, P.Remembered, World.Verdicts;
  }

  lemma NoTraffic(s: P.State, claim: Claim, world: World)
    ensures Traffic(s, s, claim, world, [])
  {
    hide P.Remembered, World.Verdicts;
  }

  lemma KeysAreDistinct(submission: Submission, deliveryId: Id)
    requires WellFormed(submission, deliveryId)
    ensures DistinctKeys(submission.requests)
  {
  }

  lemma StopKinds(world: World)
    ensures forall i | 0 <= i < |world.Verdicts()| && world.Verdicts()[i].Stop? ::
              world.Verdicts()[i].kind in {Retry, Permanent, Unsure, Block}
  {
    var responses := world.deliver.responses;
    forall i | 0 <= i < |world.Verdicts()| && world.Verdicts()[i].Stop?
      ensures world.Verdicts()[i].kind in {Retry, Permanent, Unsure, Block}
    {
      assert world.Verdicts()[i] == Classify(responses[i], world.decode);
      hide Classify;
    }
  }

  /** The worker has started to send what the world prepared for its claim. */
  ghost predicate Sends(s: P.State, w: P.Worker, world: World) {
    && w in s.workers && s.workers[w].Sending? && !s.workers[w].waiting
    && var p := s.workers[w];
    && p.next == 0 && p.receipts == p.claim.receipts && p.claim.event.Some? && world.prepare == Ready(p.delivery)
    && Plausible(s.accepted, p.claim, world) && Steady(world.askedAt) && s.clock <= world.askedAt(0)
  }

  lemma SendsStarts(s: P.State, w: P.Worker, world: World)
    requires Sends(s, w, world)
    ensures var p := s.workers[w];
            && Starting(s, w, p.claim.receipts, world.Verdicts(), world.askedAt)
            && world.Reach() <= |p.delivery.submission.requests|
            && (world.deliver.Interrupted? ==>
                  forall i | 0 <= i < |world.Verdicts()| :: Resolved(p.claim.receipts, world.Verdicts(), i))
            && (world.deliver.Answered? ==> |world.Verdicts()| == |p.delivery.submission.requests|)
  {
    KeysAreDistinct(s.workers[w].delivery.submission, s.workers[w].claim.event.value.eventId);
    hide Answerable, Resolved, DistinctKeys, Steady, WellFormed;
  }

  /** The end of the transfer, with the outcome finish will write and the traffic of the pass. */
  ghost predicate Transferred(s: P.State, w: P.Worker, t: P.State, world: World)
    requires w in s.workers && s.workers[w].Sending?
  {
    var p := s.workers[w];
    var (outcome, sent) := Delivered(p.claim, world);
    && OnlySent(s, w, t) && t.workers[w] == P.Finishing(p.claim, outcome, p.settings)
    && Traffic(s, t, p.claim, world, sent) && exists i: nat :: t.clock <= world.askedAt(i)
  }

  lemma EndedTransfer(s: P.State, w: P.Worker, t: P.State, world: World, upTo: nat, outcome: Outcome)
    requires w in s.workers && s.workers[w].Sending? && world.prepare == Ready(s.workers[w].delivery)
    requires upTo <= |s.workers[w].delivery.submission.requests|
    requires Ended(s, w, t, s.workers[w].claim.receipts, world.Verdicts(), world.askedAt, upTo, outcome)
    requires Delivered(s.workers[w].claim, world) == (outcome, Submitted(s.workers[w].claim.receipts, upTo))
    ensures Transferred(s, w, t, world)
  {
    TrafficOf(s.accepted, s.workers[w].claim, world, upTo);
    hide Delivered, Posted, NewlyAccepted, PassPosts, PassAccepted, Submitted;
  }

  lemma TransferPath(s: P.State, w: P.Worker, world: World) returns (actions: seq<P.Action>, t: P.State)
    requires Sends(s, w, world)
    ensures Leads(s, actions, t) && Transferred(s, w, t, world)
  {
    var p := s.workers[w];
    var verdicts, completed := world.Verdicts(), p.claim.receipts;
    SendsStarts(s, w, world);
    StopKinds(world);
    hide Plausible, Steady, Starting, Leads, Ended, Transferred, Submitted, World.Verdicts, Resolved;
    if world.deliver.Answered? {
      actions, t := SendPath(s, w, completed, verdicts, world.askedAt);
      EndedTransfer(s, w, t, world, PassReach(completed, verdicts), PassResult(completed, verdicts).0);
    } else {
      actions, t := InterruptedPath(s, w, completed, verdicts, world.askedAt, world.deliver.underWay,
                                    world.deliver.failed);
      EndedTransfer(s, w, t, world, world.Reach(), Delivered(p.claim, world).0);
    }
  }

  /** From a successful bind to the outcome that finish will write. */
  lemma DeliverPath(s: P.State, w: P.Worker, world: World) returns (actions: seq<P.Action>, t: P.State)
    requires w in s.workers && s.workers[w].Bound? && Ticks(s.clock, world) && s.clock == world.boundAt
    requires var p := s.workers[w];
             p.claim.event.Some? && world.prepare == Ready(p.delivery) && Plausible(s.accepted, p.claim, world)
    ensures Leads(s, actions, t) && OnlySent(s, w, t) && t.clock <= world.finishedAt
    ensures var p := s.workers[w];
            var (outcome, sent) := if world.checkedAt >= Min(p.delivery.expiresAt, p.claim.deadline)
                                   then (Plain(Skip, "no_longer_eligible"), []) else Delivered(p.claim, world);
            t.workers[w] == P.Finishing(p.claim, outcome, p.settings) && Traffic(s, t, p.claim, world, sent)
  {
    var p := s.workers[w];
    hide Plausible, Leads, Delivered, PassPosts, PassAccepted;
    if world.checkedAt >= Min(p.delivery.expiresAt, p.claim.deadline) {
      t := IneligiblePath(s, w);
      actions := [P.Ineligible(w)];
      NoTraffic(s, p.claim, world);
      return;
    }
    var mid := StartPath(s, w);
    var rest;
    rest, t := TransferPath(mid, w, world);
    Chain(s, [P.StartSend(w)], mid, rest, t);
    actions := [P.StartSend(w)] + rest;
  }

  ghost predicate Ticks(clock: Time, world: World) {
    && clock <= world.boundAt <= world.finishedAt
    && world.bindOwnedAt <= world.boundAt && world.finishOwnedAt <= world.finishedAt
    && Steady(world.askedAt) && forall i: nat :: world.boundAt <= world.askedAt(i) <= world.finishedAt
  }

  /** Preparation done in time, then the bind. */
  lemma BindPath(s: P.State, w: P.Worker, world: World) returns (actions: seq<P.Action>, t: P.State)
    requires w in s.workers && s.workers[w].Preparing? && s.workers[w].claim.event.Some? && world.prepare.Ready?
    requires Ticks(s.clock, world)
    requires WellFormed(world.prepare.delivery.submission, s.workers[w].claim.event.value.eventId)
    ensures Leads(s, actions, t) && t.accepted == s.accepted && t.wire == s.wire && t.clock == world.boundAt
    ensures var p, delivery := s.workers[w], world.prepare.delivery;
            var (db, allowed) := Tx.BindTx(s.db, P.GROUP, p.claim, delivery.submission.fingerprint, delivery.expiresAt,
                                           world.bindOwnedAt, world.boundAt);
            && t.db == db
            && if allowed then
                 && w in t.workers && t.workers - {w} == s.workers - {w}
                 && t.workers[w].Bound? && t.workers[w].claim == p.claim && t.workers[w].delivery == delivery
                 && t.workers[w].settings == p.settings
               else t.workers == s.workers - {w}
  {
    hide WellFormed, Tx.BindTx;
    var prepare, tick, bind := P.Prepared(w, world.prepare.delivery), P.Tick(world.boundAt),
                             P.Bind(w, world.bindOwnedAt, world.boundAt);
    var prepared := P.Apply(s, prepare);
    Single(s, prepare);
    var later := P.Apply(prepared, tick);
    Single(prepared, tick);
    Chain(s, [prepare], prepared, [tick], later);
    t := P.Apply(later, bind);
    Single(later, bind);
    Chain(s, [prepare] + [tick], later, [bind], t);
    actions := [prepare] + [tick] + [bind];
  }

  lemma SubmitPath(s: P.State, w: P.Worker, world: World) returns (actions: seq<P.Action>, t: P.State)
    requires w in s.workers && s.workers[w].Preparing? && s.workers[w].claim.event.Some? && world.prepare.Ready?
    requires Draws(s.workers[w].claim, s.workers[w].settings, world) && Ticks(s.clock, world)
    requires Plausible(s.accepted, s.workers[w].claim, world)
    ensures Leads(s, actions, t) && t.workers == s.workers - {w}
    ensures var (db, sent) := Submit(s.db, P.GROUP, s.workers[w].claim, world.prepare.delivery, world);
            t.db == db && Traffic(s, t, s.workers[w].claim, world, sent)
  {
    assert WellFormed(world.prepare.delivery.submission, s.workers[w].claim.event.value.eventId);
    hide Plausible, Finalized, Tx.BindTx, Draws, Leads, WellFormed, Delivered, Steady, PassPosts, PassAccepted;
    var bound;
    actions, bound := BindPath(s, w, world);
    if w !in bound.workers {
      t := bound;
      NoTraffic(s, s.workers[w].claim, world);
      return;
    }
    var rest;
    rest, t := AllowedPath(bound, w, world);
    Chain(s, actions, bound, rest, t);
    actions := actions + rest;
  }

  /** From an allowed bind to the end of the pass. */
  lemma AllowedPath(s: P.State, w: P.Worker, world: World) returns (actions: seq<P.Action>, t: P.State)
    requires w in s.workers && s.workers[w].Bound? && Ticks(s.clock, world) && s.clock == world.boundAt
    requires var p := s.workers[w];
             && p.claim.event.Some? && world.prepare == Ready(p.delivery) && Plausible(s.accepted, p.claim, world)
             && Draws(p.claim, p.settings, world)
    ensures Leads(s, actions, t) && t.workers == s.workers - {w}
    ensures var p := s.workers[w];
            var (outcome, sent) := if world.checkedAt >= Min(p.delivery.expiresAt, p.claim.deadline)
                                   then (Plain(Skip, "no_longer_eligible"), []) else Delivered(p.claim, world);
            t.db == Finalized(s.db, P.GROUP, p.claim, outcome, world) && Traffic(s, t, p.claim, world, sent)
  {
    hide Plausible, Finalized, Draws, Leads, Delivered, Steady, PassPosts, PassAccepted;
    var done, ending;
    actions, done := DeliverPath(s, w, world);
    ending, t := FinishPath(done, w, world);
    Chain(s, actions, done, ending, t);
    actions := actions + ending;
  }

  lemma AfterClaimPath(s: P.State, w: P.Worker, claim: Claim, settings: Settings, clock: Time, world: World)
    returns (actions: seq<P.Action>, t: P.State)
    requires w in s.workers && s.workers[w] == P.AfterClaim(claim, settings, clock)
    requires Draws(claim, settings, world) && Ticks(s.clock, world) && Plausible(s.accepted, claim, world)
    ensures Leads(s, actions, t) && t.workers == s.workers - {w}
    ensures var (db, sent) := AfterClaim(s.db, P.GROUP, claim, world);
            t.db == db && Traffic(s, t, claim, world, sent)
  {
    hide Finalized, Submit, Draws, Steady, PassPosts, PassAccepted;
    if claim.event.None? {
      actions, t := FinishPath(s, w, world);
      NoTraffic(s, claim, world);
    } else if world.prepare.Ready? {
      hide Plausible;
      actions, t := SubmitPath(s, w, world);
    } else {
      var outcome :=
        if world.prepare.PrepareTimeout? then Plain(Retry, "preparation_timeout") else world.prepare.outcome;
      var declined := P.NotPrepared(w, outcome);
      var mid := P.Apply(s, declined);
      Single(s, declined);
      var ending;
      ending, t := FinishPath(mid, w, world);
      Chain(s, [declined], mid, ending, t);
      actions := [declined] + ending;
      NoTraffic(s, claim, world);
    }
  }

  /**
   * One pass of the worker, from claim to finish, is a sequence of protocol steps that leaves
   * the tables exactly as process_one does and the worker idle again.  The wire gains exactly
   * the requests the pass sent, and the provider exactly the submissions that were new to it.
   */
  lemma PassIsAProtocolRun(s: P.State, w: P.Worker, settings: Settings, world: World)
    returns (actions: seq<P.Action>, t: P.State)
    requires w !in s.workers && settings.Valid() && world.token !in s.issued
    requires world.claimedAt <= s.clock && Ticks(s.clock, world)
    requires var claim := ClaimedIn(s.db, P.GROUP, P.LEASED_TYPES, settings, world);
             claim.Some? ==> Draws(claim.value, settings, world) && Plausible(s.accepted, claim.value, world)
    ensures Leads(s, actions, t) && t.workers == s.workers
    ensures var claim := ClaimedIn(s.db, P.GROUP, P.LEASED_TYPES, settings, world);
            var (db, handled, sent) := PassTx(s.db, P.GROUP, P.LEASED_TYPES, settings, world);
            && t.db == db && (handled <==> claim.Some?)
            && if claim.Some? then Traffic(s, t, claim.value, world, sent)
               else t.wire == s.wire && t.accepted == s.accepted
  {
    var (db, claim) := Tx.ClaimTx(s.db, P.GROUP, P.LEASED_TYPES, world.claimedAt, settings, world.busySweep,
                                  world.busyPick, world.token);
    ClaimsHaveAttempts(s.db, P.GROUP, P.LEASED_TYPES, settings, world);
    hide Tx.ClaimTx, AfterClaim, Draws, Plausible, Settings.Valid, Ticks, PassPosts, PassAccepted;
    var first := P.ClaimOne(w, world.claimedAt, settings, world.busySweep, world.busyPick, world.token);
    var claimed := P.Apply(s, first);
    Single(s, first);
    if claim.None? {
      actions, t := [first], claimed;
    } else {
      var rest;
      rest, t := AfterClaimPath(claimed, w, claim.value, settings, s.clock, world);
      Chain(s, [first], claimed, rest, t);
      actions := [first] + rest;
      assert claimed.workers - {w} == s.workers;
    }
  }
}
