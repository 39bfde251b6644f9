/**
 * The protocol under its time bounds: a claim and a bind commit within one unit of work of
 * the time they read, no phase outlasts its timeout, and a request reaches the provider or
 * is lost within TRANSIT.  Time may pass a bound only after the worker left the phase.
 */
module Timed {
  import opened Basics
  import opened OutboxModel
  import opened OutboxTransactions
  import opened Sender
  import opened Protocol
  import opened RowLemmas
  import opened Invariant
  import opened Preservation
  import opened Guarantees
  import opened Fencing

  const TRANSIT: Time := 3500 * SECOND

  // How long after a message's deadline its delivery may still be submitting.
  const OVERRUN: Time := 60 * SECOND + UNIT_OF_WORK + HANDOVER

  function Bounded(p: Phase): Option<Time> {
    if p.Finishing? then None else Some(p.due)
  }

  ghost predicate InTime(s: State, a: Action) {
    match a
    case Tick(to) => forall w | w in s.workers && Bounded(s.workers[w]).Some? :: to <= Bounded(s.workers[w]).value
    case ClaimOne(_, now, _, _, _, _) => s.clock <= now + UNIT_OF_WORK
    case Bind(_, _, now) => s.clock <= now + UNIT_OF_WORK
    case Process(sent, _) => s.clock <= sent.at + TRANSIT
    case _ => true
  }

  ghost predicate TimedRun(states: seq<State>, actions: seq<Action>) {
    Run(states, actions) && forall i | 0 <= i < |actions| :: InTime(states[i], actions[i])
  }

  /** The latest moment the provider call of a worker in phase p can end. */
  function LastDelivery(p: Phase): Time
    requires !p.Finishing?
  {
    var send := p.settings.sendSeconds * SECOND;
    match p
    case Preparing(_, _, due) => due + UNIT_OF_WORK + HANDOVER + HANDOVER + send
    case Binding(_, _, _, due) => due + HANDOVER + send
    case Bound(_, _, _, due) => due + send
    case Sending(_, _, _, due, _, _, _) => due
  }

  /** A worker up to the end of its provider call still holds its row, and will until it is done. */
  predicate Covered(s: State, p: Phase) {
    p.Finishing? ||
    (&& p.settings.Valid()
     && s.clock <= p.due
     && HeldUnder(s, p.claim.messageId, p.claim.token)
     && var r := s.db.rows[p.claim.messageId];
     && r.lease.Some? && LastDelivery(p) < r.lease.value
     && r.deadline.Some?
     && (p.Bound? ==> p.due <= r.deadline.value + UNIT_OF_WORK + HANDOVER)
     && (p.Sending? ==> p.due <= r.deadline.value + OVERRUN))
  }

  predicate SentInTime(s: State, x: Sent) {
    x.messageId in s.firstDue && x.at <= s.firstDue[x.messageId] + MAX_AGE + OVERRUN
  }

  ghost predicate TimedOk(s: State) {
    && (forall w | w in s.workers :: Covered(s, s.workers[w]))
    && (forall x | x in s.wire :: SentInTime(s, x))
    && (forall a | a in s.accepted :: a.at <= a.sent.at + TRANSIT)
  }

  // ---- a live lease keeps everyone else out ----------------------------------------

  lemma LiveRowNotSetAside(r: Row, r': Row, now: Time, settings: Settings)
    requires r.status == Processing && r.lease.Some? && r.lease.value > now
    requires SetAside(r, r', LEASED_TYPES, now, settings)
    ensures r' == r
  {
  }

  lemma LiveRowNotHandedOut(id: Id, r: Row, r': Row, claim: Claim, now: Time, settings: Settings, token: Token)
    requires r.status == Processing && r.lease.Some? && r.lease.value > now
    ensures !HandedOut(id, r, r', claim, LEASED_TYPES, now, settings, token)
  {
  }

  lemma ClaimSparesLive(s: State, a: Action, t: State, id: Id)
    requires a.ClaimOne? && Next(s, a, t) && id in s.db.rows
    requires var r := s.db.rows[id]; r.status == Processing && r.lease.Some? && r.lease.value > s.clock
    ensures id in t.db.rows && t.db.rows[id] == s.db.rows[id]
  {
    hide Next;
    ClaimEnabled(s, a, t);
    var claim := ClaimHasEffect(s, a, t);
    if claim.Some? {
      LiveRowNotHandedOut(id, s.db.rows[id], t.db.rows[id], claim.value, a.now, a.settings, a.token);
    }
    hide HandedOut, SetAside;
    if claim.None? || claim.value.messageId != id {
      LiveRowNotSetAside(s.db.rows[id], t.db.rows[id], a.now, a.settings);
    }
  }

  lemma OthersSpareLive(s: State, a: Action, t: State, id: Id)
    requires RowsOk(s) && TableOk(s) && Next(s, a, t) && id in s.db.rows
    requires !a.ClaimOne? && !a.Bind? && !a.Finish?
    requires var r := s.db.rows[id]; Leased(r) && r.status == Processing && r.token.Some?
    ensures id in t.db.rows && t.db.rows[id] == s.db.rows[id]
  {
    hide Next, OrdinaryChange, RowsOk;
    if a.Replay? {
      ReplayHasEffect(s, a, t);
    } else if a.Add? {
      AddTouchesNoRow(s, a, t, id);
    } else if a.OrdinaryClaim? {
      OrdinaryClaimHasEffect(s, a, t);
    } else if a.OrdinaryRecover? {
      OrdinaryRecoverHasEffect(s, a, t);
    } else if a.OrdinaryPublish? || a.OrdinaryFail? {
      OrdinaryMarkHasEffect(s, a, t);
    } else {
      QuietStep(s, a, t);
    }
  }

  lemma FencedSparesOthers(s: State, a: Action, t: State, id: Id)
    requires WorkersOk(s) && (a.Bind? || a.Finish?) && Next(s, a, t) && id in s.db.rows
    ensures a.w in s.workers && id in t.db.rows
    ensures s.db.rows[id].token != Some(s.workers[a.w].claim.token) ==> t.db.rows[id] == s.db.rows[id]
  {
    hide Next;
    if a.Bind? {
      BindHasEffect(s, a, t);
    } else {
      FinishHasEffect(s, a, t);
    }
    assert WorkerOk(s, s.workers[a.w]);
    hide WorkersOk, PhaseFits, ClaimFits;
  }

  /** The row of a covered worker is out of reach of every step but its own bind and finish. */
  lemma CoveredRowStays(s: State, a: Action, t: State, v: Worker)
    requires Inv(s) && Next(s, a, t) && v in s.workers && !s.workers[v].Finishing? && Covered(s, s.workers[v])
    requires Actor(a) != Some(v) || (!a.Bind? && !a.Finish?)
    ensures var id := s.workers[v].claim.messageId;
            id in t.db.rows && t.db.rows[id] == s.db.rows[id]
  {
    hide Next, RowsOk, TableOk, WireOk, ProviderOk, ReceiptsOk;
    var p := s.workers[v];
    var id := p.claim.messageId;
    assert WorkerOk(s, p);
    assert Leased(s.db.rows[id]);
    hide WorkerOk;
    if a.ClaimOne? {
      ClaimSparesLive(s, a, t, id);
    } else if a.Bind? || a.Finish? {
      FencedSparesOthers(s, a, t, id);
      assert s.workers[a.w].claim.token != p.claim.token;
    } else {
      OthersSpareLive(s, a, t, id);
    }
  }

  // ---- coverage is kept ------------------------------------------------------------

  lemma TickInTime(s: State, a: Action, t: State)
    requires Next(s, a, t) && InTime(s, a)
    ensures a.Tick? ==> forall w | w in s.workers && !s.workers[w].Finishing? :: t.clock <= s.workers[w].due
    ensures !a.Tick? ==> t.clock == s.clock
  {
    hide Enabled;
    forall w | a.Tick? && w in s.workers && !s.workers[w].Finishing? ensures t.clock <= s.workers[w].due {
      assert Bounded(s.workers[w]) == Some(s.workers[w].due);
    }
  }

  lemma StillCovered(s: State, t: State, p: Phase)
    requires Covered(s, p) && !p.Finishing? && p.claim.messageId in s.db.rows && p.claim.messageId in t.db.rows
    requires t.db.rows[p.claim.messageId] == s.db.rows[p.claim.messageId] && t.clock <= p.due
    ensures Covered(t, p)
  {
  }

  lemma IdleCovered(s: State, a: Action, t: State, v: Worker)
    requires Inv(s) && Next(s, a, t) && InTime(s, a) && v in s.workers && Covered(s, s.workers[v])
    requires v in t.workers && Actor(a) != Some(v)
    ensures Covered(t, t.workers[v])
  {
    hide Next, Inv, InTime;
    FrameStep(s, a, t);
    if !s.workers[v].Finishing? {
      CoveredRowStays(s, a, t, v);
      TickInTime(s, a, t);
      hide HeldUnder, LastDelivery;
      StillCovered(s, t, s.workers[v]);
    }
  }

  lemma ClaimerCovered(s: State, a: Action, t: State)
    requires a.ClaimOne? && Next(s, a, t) && InTime(s, a) && a.w in t.workers
    ensures Covered(t, t.workers[a.w])
  {
    hide Next;
    ClaimEnabled(s, a, t);
    var claim := ClaimHasEffect(s, a, t);
    var c := claim.value;
    assert HandedOut(c.messageId, s.db.rows[c.messageId], t.db.rows[c.messageId], c, LEASED_TYPES, a.now, a.settings,
                     a.token);
  }

  lemma BinderCovered(s: State, a: Action, t: State)
    requires RowsOk(s) && WorkersOk(s) && a.Bind? && Next(s, a, t) && InTime(s, a)
    requires a.w in s.workers && Covered(s, s.workers[a.w]) && a.w in t.workers
    ensures Covered(t, t.workers[a.w])
  {
    hide Next;
    BindHasEffect(s, a, t);
    var p := s.workers[a.w];
    assert WorkerOk(s, p);
    BinderHasEffect(s, a, t);
    hide WorkersOk, WorkerOk, RowsOk;
    BindClock(s, a, t);
  }

  lemma BindClock(s: State, a: Action, t: State)
    requires a.Bind? && Next(s, a, t)
    ensures t.clock == s.clock
  {
  }

  lemma LocalCovered(s: State, a: Action, t: State)
    requires Local(a) && Next(s, a, t) && a.w in s.workers && Covered(s, s.workers[a.w])
    ensures a.w in t.workers && Covered(t, t.workers[a.w])
  {
    LocalHasEffect(s, a, t);
    LocalClock(s, a, t);
    hide Next, Apply;
  }

  lemma LocalClock(s: State, a: Action, t: State)
    requires Local(a) && Next(s, a, t)
    ensures t.clock == s.clock
  {
  }

  lemma CoveredStep(s: State, a: Action, t: State, v: Worker)
    requires Inv(s) && Next(s, a, t) && InTime(s, a) && v in t.workers
    requires forall w | w in s.workers :: Covered(s, s.workers[w])
    ensures Covered(t, t.workers[v])
  {
    hide Next, RowsOk, TableOk, WorkersOk, WireOk, ProviderOk, ReceiptsOk, Covered, InTime;
    if Actor(a) != Some(v) {
      FrameStep(s, a, t);
      IdleCovered(s, a, t, v);
    } else if a.ClaimOne? {
      ClaimerCovered(s, a, t);
    } else if a.Bind? {
      BindHasEffect(s, a, t);
      BinderCovered(s, a, t);
    } else if Local(a) {
      LocalHasEffect(s, a, t);
      LocalCovered(s, a, t);
    } else {
      LeaverHasEffect(s, a, t);
    }
  }

  lemma SenderInTime(s: State, a: Action, t: State)
    requires RowsOk(s) && WorkersOk(s) && a.Transmit? && Next(s, a, t)
    requires a.w in s.workers && Covered(s, s.workers[a.w])
    requires RowsEvolve(s, a, t)
    ensures forall x | x in t.wire && x !in s.wire :: SentInTime(t, x)
  {
    hide Next;
    WireHasEffect(s, a, t);
    var p := s.workers[a.w];
    assert WorkerOk(s, p);
    assert Dated(s, p.claim.messageId, s.db.rows[p.claim.messageId]);
  }

  lemma WireInTime(s: State, a: Action, t: State)
    requires Inv(s) && Next(s, a, t) && TimedOk(s) && RowsEvolve(s, a, t)
    ensures forall x | x in t.wire :: SentInTime(t, x)
  {
    hide Next, RowsOk, TableOk, WorkersOk, WireOk, ProviderOk, ReceiptsOk, Covered, Evolves, Fenced;
    WireHasEffect(s, a, t);
    if a.Transmit? {
      SenderInTime(s, a, t);
    }
    forall x | x in s.wire ensures SentInTime(t, x) {
      assert SentInTime(s, x);
    }
  }

  lemma ProviderInTime(s: State, a: Action, t: State)
    requires Next(s, a, t) && InTime(s, a) && TimedOk(s)
    ensures forall x | x in t.accepted :: x.at <= x.sent.at + TRANSIT
  {
    hide Next, Covered, SentInTime;
    ProviderHasEffect(s, a, t);
  }

  lemma TimedStep(s: State, a: Action, t: State)
    requires Inv(s) && TimedOk(s) && Next(s, a, t) && InTime(s, a) && RowsEvolve(s, a, t)
    ensures TimedOk(t)
  {
    hide Next, Inv, RowsEvolve, Covered, SentInTime, InTime;
    forall v | v in t.workers ensures Covered(t, t.workers[v]) {
      CoveredStep(s, a, t, v);
    }
    WireInTime(s, a, t);
    ProviderInTime(s, a, t);
  }

  lemma {:induction false} TimedRunOk(states: seq<State>, actions: seq<Action>, i: nat)
    requires TimedRun(states, actions) && i < |states|
    ensures Inv(states[i]) && TimedOk(states[i])
  {
    hide Next, Inv, RowsEvolve, InTime, Covered, SentInTime;
    RunInv(states, actions, i);
    if i > 0 {
      hide Initial, TimedOk;
      TimedRunOk(states, actions, i - 1);
      RunStep(states, actions, i - 1);
      TimedStep(states[i - 1], actions[i - 1], states[i]);
    }
  }

  // ---- theorems --------------------------------------------------------------------

  /**
   * A worker inside deliver still holds its row, and its call ends strictly before the
   * lease it was claimed under.
   */
  lemma DeliveryEndsBeforeLease(states: seq<State>, actions: seq<Action>, i: nat, w: Worker)
    requires TimedRun(states, actions) && i < |states|
    requires w in states[i].workers && states[i].workers[w].Sending?
    ensures var s, p := states[i], states[i].workers[w];
            && HeldUnder(s, p.claim.messageId, p.claim.token)
            && s.db.rows[p.claim.messageId].lease.Some?
            && s.clock <= p.due < s.db.rows[p.claim.messageId].lease.value
  {
    hide Next, Initial, Inv, InTime;
    TimedRunOk(states, actions, i);
    assert Covered(states[i], states[i].workers[w]);
  }

  /** From claim to result, at most one worker is busy with a message; so one at most is inside deliver. */
  lemma OneWorkerPerMessage(states: seq<State>, actions: seq<Action>, i: nat, v: Worker, w: Worker)
    requires TimedRun(states, actions) && i < |states|
    requires v in states[i].workers && w in states[i].workers
    requires !states[i].workers[v].Finishing? && !states[i].workers[w].Finishing?
    requires states[i].workers[v].claim.messageId == states[i].workers[w].claim.messageId
    ensures v == w
  {
    hide Next, Initial, InTime, RowsOk, TableOk, WireOk, ProviderOk, ReceiptsOk;
    TimedRunOk(states, actions, i);
    assert Covered(states[i], states[i].workers[v]) && Covered(states[i], states[i].workers[w]);
  }

  /**
   * A provider that forgets keys after a day still takes each (delivery, recipient) at most
   * once: every submission of a message falls inside one day.
   */
  lemma AcceptedAtMostOnce(states: seq<State>, actions: seq<Action>, i: nat, a: Acceptance, b: Acceptance)
    requires TimedRun(states, actions) && i < |states|
    requires a in states[i].accepted && b in states[i].accepted && a.sent.request.key == b.sent.request.key
    ensures a == b
  {
    var s := states[i];
    hide Next, Initial, InTime, RowsOk, TableOk, WorkersOk, ReceiptsOk, Covered, SentFits;
    TimedRunOk(states, actions, i);
    SameKeySameRequest(s, a.sent, b.sent);
    assert SentInTime(s, a.sent) && SentInTime(s, b.sent);
  }
}
