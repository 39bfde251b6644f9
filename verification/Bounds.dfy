/** How often a message can be claimed, and how often its row can change at all. */
module Bounds {
  import opened Basics
  import opened OutboxModel
  import opened OutboxTransactions
  import opened Protocol
  import opened RowLemmas
  import opened Invariant
  import opened Preservation
  import opened Guarantees

  // ---- claims ----------------------------------------------------------------------

  /** The tokens of all claims ever made of a message. */
  ghost function TokensFor(s: State, id: Id): set<Token> {
    set k | k in s.issued && s.issued[k] == id
  }

  /** A leased row counts its claims exactly. */
  ghost predicate ClaimsCounted(s: State) {
    forall id | id in s.db.rows && Leased(s.db.rows[id]) :: |TokensFor(s, id)| == s.db.rows[id].attempts
  }

  lemma ClaimCountFacts(s: State, a: Action, t: State, claim: Option<Claim>, id: Id)
    requires a.ClaimOne? && ClaimEffect(s, a, t, claim) && id in s.db.rows
    ensures if claim.Some? && claim.value.messageId == id
            then t.db.rows[id].attempts == s.db.rows[id].attempts + 1
            else t.db.rows[id].attempts == s.db.rows[id].attempts
    ensures t.issued == if claim.Some? then s.issued[a.token := claim.value.messageId] else s.issued
  {
    hide LeaseExpired, ClaimDeadline;
    assert if claim.Some? && claim.value.messageId == id
           then HandedOut(id, s.db.rows[id], t.db.rows[id], claim.value, LEASED_TYPES, a.now, a.settings, a.token)
           else SetAside(s.db.rows[id], t.db.rows[id], LEASED_TYPES, a.now, a.settings);
  }

  lemma ClaimCountStep(s: State, a: Action, t: State, claim: Option<Claim>, id: Id)
    requires a.ClaimOne? && a.token !in s.issued && ClaimEffect(s, a, t, claim)
    requires id in s.db.rows && |TokensFor(s, id)| == s.db.rows[id].attempts
    ensures |TokensFor(t, id)| == t.db.rows[id].attempts
  {
    ClaimCountFacts(s, a, t, claim, id);
    hide ClaimEffect;
    if claim.Some? && claim.value.messageId == id {
      assert TokensFor(t, id) == TokensFor(s, id) + {a.token};
    } else {
      assert TokensFor(t, id) == TokensFor(s, id);
    }
  }

  lemma OtherCountStep(s: State, a: Action, t: State)
    requires TableOk(s) && ClaimsCounted(s) && !a.ClaimOne? && Next(s, a, t) && RowsEvolve(s, a, t)
    ensures ClaimsCounted(t)
  {
    hide Next, TableOk;
    if a.Add? {
      AddKeepsIssued(s, a, t);
    } else {
      TableHasEffect(s, a, t);
    }
    forall id | id in t.db.rows && Leased(t.db.rows[id]) ensures |TokensFor(t, id)| == t.db.rows[id].attempts {
      assert TokensFor(t, id) == TokensFor(s, id);
      if id in s.db.rows {
        RowsEvolveAt(s, a, t, id);
        assert Leased(s.db.rows[id]);
      }
    }
  }

  lemma AddKeepsIssued(s: State, a: Action, t: State)
    requires TableOk(s) && a.Add? && Next(s, a, t)
    ensures t.issued == s.issued
    ensures forall id | id in t.db.rows && id !in s.db.rows :: t.db.rows[id].attempts == 0 && TokensFor(s, id) == {}
  {
    assert a.id !in s.db.rows && t == WithRows(s, s.db.rows[a.id := NewRow(a.envelope, a.availableAt)]);
    hide Next;
    assert forall k | k in s.issued :: s.issued[k] in s.db.rows;
  }

  lemma CountStep(s: State, a: Action, t: State)
    requires TableOk(s) && ClaimsCounted(s) && Next(s, a, t) && RowsEvolve(s, a, t)
    ensures ClaimsCounted(t)
  {
    hide Next, TableOk;
    if a.ClaimOne? {
      ClaimEnabled(s, a, t);
      var claim := ClaimHasEffect(s, a, t);
      forall id | id in t.db.rows && Leased(t.db.rows[id]) ensures |TokensFor(t, id)| == t.db.rows[id].attempts {
        RowsEvolveAt(s, a, t, id);
        ClaimCountStep(s, a, t, claim, id);
      }
    } else {
      OtherCountStep(s, a, t);
    }
  }

  lemma {:induction false} RunCountsClaims(states: seq<State>, actions: seq<Action>, i: nat)
    requires Run(states, actions) && i < |states|
    ensures ClaimsCounted(states[i])
  {
    hide Next, TableOk, RowsOk, WorkersOk, WireOk, ProviderOk, ReceiptsOk, ClaimsCounted, RowsEvolve;
    if i == 0 {
      NothingCounted(states[0]);
    } else {
      hide Initial;
      RunCountsClaims(states, actions, i - 1);
      RunStep(states, actions, i - 1);
      CountStep(states[i - 1], actions[i - 1], states[i]);
    }
  }

  lemma NothingCounted(s: State)
    requires Initial(s)
    ensures ClaimsCounted(s)
  {
  }

  /**
   * Attempts never pass the row's budget, which never passes 100, so a message is claimed
   * at most 100 times in its life, counting every replay.
   */
  lemma ClaimedAtMostAHundredTimes(states: seq<State>, actions: seq<Action>, i: nat, id: Id)
    requires Run(states, actions) && i < |states| && id in states[i].db.rows && Leased(states[i].db.rows[id])
    ensures var r := states[i].db.rows[id];
            && |TokensFor(states[i], id)| == r.attempts <= r.retryBudget <= 100
            && (Waiting(r) ==> r.attempts < r.retryBudget)
            && (r.status == Failed ==> r.deadline.Some? && r.availableAt < r.deadline.value)
  {
    hide Next, Initial;
    RunCountsClaims(states, actions, i);
    RunInv(states, actions, i);
    assert RowOk(states[i].db.rows[id]);
  }

  // ---- termination -----------------------------------------------------------------

  predicate WindowOpen(r: Row, clock: Time) {
    r.deadline.Some? && r.deadline.value > clock
  }

  /** What a row can still do before its next claim. */
  function Rank(r: Row, unbound: set<Token>, clock: Time): nat {
    match r.status
    case Processing => if r.token.Some? && r.token.value in unbound then 6 else 5
    case Dead => if WindowOpen(r, clock) then 3 else 1
    case Blocked => if WindowOpen(r, clock) then 3 else 1
    case Pending => 2
    case Failed => 2
    case Published => 0
    case Skipped => 0
    case Uncertain => 0
  }

  function MeasureOf(r: Row, unbound: set<Token>, clock: Time): int {
    (100 - r.attempts) * 10 + Rank(r, unbound, clock)
  }

  const LIFETIME_CHANGES: int := 1002

  /** The row either stays and its measure does not grow, or changes and its measure shrinks. */
  predicate Descends(s: State, t: State, r: Row, r': Row) {
    && MeasureOf(r', t.unbound, t.clock) <= MeasureOf(r, s.unbound, s.clock)
    && (r' != r ==> MeasureOf(r', t.unbound, t.clock) < MeasureOf(r, s.unbound, s.clock))
  }

  /** Tokens leave the unbound set and time passes; a new unbound token belongs to no old row. */
  predicate Aging(s: State, t: State, r: Row) {
    && s.clock <= t.clock
    && (r.token.Some? && r.token.value in t.unbound ==> r.token.value in s.unbound)
  }

  lemma StayingDescends(s: State, t: State, r: Row)
    requires Aging(s, t, r)
    ensures Descends(s, t, r, r)
  {
  }

  lemma SetAsideDescends(s: State, t: State, r: Row, r': Row, now: Time, settings: Settings)
    requires RowOk(r) && settings.Valid() && Aging(s, t, r) && now <= t.clock
    requires SetAside(r, r', LEASED_TYPES, now, settings)
    ensures Descends(s, t, r, r')
  {
  }

  lemma HandedOutDescends(s: State, t: State, id: Id, r: Row, r': Row, claim: Claim, now: Time, settings: Settings,
                          token: Token)
    requires RowOk(r) && settings.Valid()
    requires HandedOut(id, r, r', claim, LEASED_TYPES, now, settings, token)
    ensures Descends(s, t, r, r')
  {
  }

  lemma BindDescends(s: State, t: State, p: Phase, r: Row, now: Time)
    requires p.Binding? && Holds(r, p.claim.token) && p.claim.token in s.unbound && p.claim.token !in t.unbound
    ensures Descends(s, t, r, BoundRow(r, p.claim, p.delivery.submission.fingerprint, p.delivery.expiresAt, now))
  {
  }

  lemma FinishDescends(s: State, t: State, p: Phase, r: Row, delay: Time, now: Time)
    requires p.Finishing? && Holds(r, p.claim.token)
    ensures Descends(s, t, r, FinishedRow(r, p.claim, p.outcome, delay, now))
  {
  }

  lemma ReplayDescends(s: State, t: State, id: Id, prepared: Preparation)
    requires Replayable(s.db.rows, id, LEASED_TYPES, prepared, s.clock)
    ensures Descends(s, t, s.db.rows[id], ReplayedRow(s.db.rows[id], s.clock))
  {
  }

  lemma OrdinaryDescends(s: State, t: State, r: Row, r': Row)
    requires Leased(r) ==> r.token.None? && r.status == Processing
    requires exists now, at, code :: OrdinaryChange(r, r', now, at, code)
    requires s.clock <= t.clock && t.unbound <= s.unbound
    requires RowOk(r)
    ensures Descends(s, t, r, r')
  {
  }

  lemma AgingStep(s: State, a: Action, t: State, id: Id)
    requires RowsOk(s) && TableOk(s) && Next(s, a, t) && id in s.db.rows
    ensures Aging(s, t, s.db.rows[id])
  {
    hide Next, RowOk, Dated, EventIdsUnique;
    FrameStep(s, a, t);
    ClockStep(s, a, t);
    assert TokenOf(s, id, s.db.rows[id]);
  }

  lemma ClockStep(s: State, a: Action, t: State)
    requires Next(s, a, t)
    ensures s.clock <= t.clock
    ensures !a.Tick? ==> t.clock == s.clock
  {
  }

  lemma ClaimDescends(s: State, a: Action, t: State, id: Id)
    requires RowsOk(s) && a.ClaimOne? && Next(s, a, t) && id in s.db.rows && Aging(s, t, s.db.rows[id])
    ensures id in t.db.rows && Descends(s, t, s.db.rows[id], t.db.rows[id])
  {
    hide Next, Aging, Descends, RowOk;
    ClaimEnabled(s, a, t);
    var claim := ClaimHasEffect(s, a, t);
    assert RowOk(s.db.rows[id]);
    hide SetAside, HandedOut, RowsOk;
    if claim.Some? && claim.value.messageId == id {
      HandedOutDescends(s, t, id, s.db.rows[id], t.db.rows[id], claim.value, a.now, a.settings, a.token);
    } else {
      SetAsideDescends(s, t, s.db.rows[id], t.db.rows[id], a.now, a.settings);
    }
  }

  lemma FencedDescends(s: State, a: Action, t: State, id: Id)
    requires RowsOk(s) && WorkersOk(s) && (a.Bind? || a.Finish?) && Next(s, a, t)
    requires id in s.db.rows && Aging(s, t, s.db.rows[id])
    ensures id in t.db.rows && Descends(s, t, s.db.rows[id], t.db.rows[id])
  {
    hide Next, Aging, Descends, RowOk, ClaimFits, PhaseFits;
    StayingDescends(s, t, s.db.rows[id]);
    if a.Bind? {
      BindHasEffect(s, a, t);
      var p := s.workers[a.w];
      assert WorkerOk(s, p);
      BinderHasEffect(s, a, t);
      if Owned(s.db.rows, p.claim, a.ownedAt) {
        BindDescends(s, t, p, s.db.rows[p.claim.messageId], a.now);
      }
    } else {
      FinishHasEffect(s, a, t);
      var p := s.workers[a.w];
      assert WorkerOk(s, p);
      if Owned(s.db.rows, p.claim, a.ownedAt) {
        FinishDescends(s, t, p, s.db.rows[p.claim.messageId],
                       NextDelay(p.claim.attempts, p.outcome, a.jitter).value, a.now);
      }
    }
  }

  lemma OtherDescends(s: State, a: Action, t: State, id: Id)
    requires RowsOk(s) && TableOk(s) && !a.ClaimOne? && !a.Bind? && !a.Finish? && Next(s, a, t)
    requires id in s.db.rows && Aging(s, t, s.db.rows[id])
    ensures id in t.db.rows && Descends(s, t, s.db.rows[id], t.db.rows[id])
  {
    hide Next, Aging, Descends, RowOk, OrdinaryChange;
    StayingDescends(s, t, s.db.rows[id]);
    assert RowOk(s.db.rows[id]);
    if a.Replay? {
      ReplayHasEffect(s, a, t);
      ReplayDescends(s, t, a.id, a.prepared);
    } else if a.Add? {
      AddTouchesNoRow(s, a, t, id);
    } else if Ordinary(a) {
      TableHasEffect(s, a, t);
      ClockStep(s, a, t);
      if a.OrdinaryClaim? {
        OrdinaryClaimHasEffect(s, a, t);
      } else if a.OrdinaryRecover? {
        OrdinaryRecoverHasEffect(s, a, t);
      } else {
        OrdinaryMarkHasEffect(s, a, t);
      }
      if t.db.rows[id] != s.db.rows[id] {
        OrdinaryDescends(s, t, s.db.rows[id], t.db.rows[id]);
      }
    } else {
      QuietStep(s, a, t);
    }
  }

  lemma MeasureStep(s: State, a: Action, t: State, id: Id)
    requires Inv(s) && Next(s, a, t) && id in s.db.rows
    ensures id in t.db.rows && Descends(s, t, s.db.rows[id], t.db.rows[id])
  {
    hide Next, RowsOk, TableOk, WorkersOk, WireOk, ProviderOk, ReceiptsOk, Aging, Descends;
    AgingStep(s, a, t, id);
    if a.ClaimOne? {
      ClaimDescends(s, a, t, id);
    } else if a.Bind? || a.Finish? {
      FencedDescends(s, a, t, id);
    } else {
      OtherDescends(s, a, t, id);
    }
  }

  /** How many of the first n steps of a run changed the row of a message. */
  ghost function Changes(states: seq<State>, id: Id, n: nat): nat
    requires n < |states|
  {
    if n == 0 then 0
    else
      Changes(states, id, n - 1)
      + if id in states[n - 1].db.rows && id in states[n].db.rows && states[n].db.rows[id] != states[n - 1].db.rows[id]
        then 1 else 0
  }

  lemma NewRowMeasure(s: State, a: Action, t: State, id: Id)
    requires Next(s, a, t) && id !in s.db.rows && id in t.db.rows
    ensures MeasureOf(t.db.rows[id], t.unbound, t.clock) == LIFETIME_CHANGES
  {
    if a.ClaimOne? {
      var claim := ClaimHasEffect(s, a, t);
    } else if !a.Add? {
      TableHasEffect(s, a, t);
    } else {
      assert t == WithRows(s, s.db.rows[a.id := NewRow(a.envelope, a.availableAt)]);
      hide Next;
    }
  }

  /** In any run, replayed as often as anyone likes, a message row changes at most 1002 times. */
  lemma {:induction false} RowsSettle(states: seq<State>, actions: seq<Action>, id: Id, n: nat)
    requires Run(states, actions) && n < |states|
    ensures id !in states[n].db.rows ==> Changes(states, id, n) == 0
    ensures id in states[n].db.rows ==>
              Changes(states, id, n) + MeasureOf(states[n].db.rows[id], states[n].unbound, states[n].clock)
              <= LIFETIME_CHANGES
    ensures Changes(states, id, n) <= LIFETIME_CHANGES
  {
    hide Next, Inv, RowsEvolve, MeasureOf;
    if n > 0 {
      hide Initial;
      var s, a, t := states[n - 1], actions[n - 1], states[n];
      RowsSettle(states, actions, id, n - 1);
      RunStep(states, actions, n - 1);
      if id in s.db.rows {
        MeasureStep(s, a, t, id);
        MeasureIsPositive(t, id);
      } else if id in t.db.rows {
        NewRowMeasure(s, a, t, id);
      }
    }
  }

  lemma MeasureIsPositive(s: State, id: Id)
    requires Inv(s) && id in s.db.rows
    ensures MeasureOf(s.db.rows[id], s.unbound, s.clock) >= 0
  {
    assert RowOk(s.db.rows[id]);
  }
}
