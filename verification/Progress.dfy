/** What must happen in a run: due messages are claimed, stopped groups rest, and the dead stay dead. */
module Progress {
  import opened Basics
  import opened OutboxModel
  import opened OutboxTransactions
  import opened OutboxAnswers
  import opened Sender
  import opened Protocol
  import opened RowLemmas
  import opened Invariant
  import opened Preservation
  import opened Guarantees
  import opened Fencing
  import opened Ordering

  // ---- due messages are claimed ----------------------------------------------------

  /** A sweep leaves a due row with time left alone, and keeps it first. */
  lemma FirstSurvivesSweep(rows: Rows, f: Id, types: set<string>, now: Time, settings: Settings, busySweep: set<Id>,
                           busyPick: set<Id>)
    requires StandsFirst(rows, f, types, now, busyPick) && Cutoff(rows[f], now, settings) > now
    ensures var swept := Swept(rows, SweepIds(rows, types, now, busySweep));
            StandsFirst(swept, f, types, now, busyPick) && swept[f] == rows[f]
  {
    var ids := SweepIds(rows, types, now, busySweep);
    var swept := Swept(rows, ids);
    SweepAnswers(rows, types, now, busySweep, f);
    forall e | e in swept && swept[e].envelope.aggregate == swept[f].envelope.aggregate
               && swept[e].envelope.version < swept[f].envelope.version
      ensures swept[e].status == Published || swept[e].status == Skipped
    {
      SweepAnswers(rows, types, now, busySweep, e);
    }
    forall x | x !in busyPick && Due(swept, x, types, now)
      ensures NotLater(swept[f].availableAt, f, swept[x].availableAt, x)
    {
      SweepMakesNothingDue(rows, ids, x, types, now);
      SweepAnswers(rows, types, now, busySweep, x);
    }
  }

  lemma OnlyOneFirst(rows: Rows, f: Id, g: Id, types: set<string>, now: Time, busy: set<Id>)
    requires StandsFirst(rows, f, types, now, busy) && StandsFirst(rows, g, types, now, busy)
    ensures f == g
  {
  }

  lemma FirstIsHandedOut(db: Db, f: Id, types: set<string>, now: Time, settings: Settings, busySweep: set<Id>,
                         busyPick: set<Id>, token: Token)
    requires GROUP in db.controls ==> !db.controls[GROUP].paused
    requires StandsFirst(db.rows, f, types, now, busyPick) && Cutoff(db.rows[f], now, settings) > now
    ensures var (db', claim) := ClaimTx(db, GROUP, types, now, settings, busySweep, busyPick, token);
            claim.Some? && f in db'.rows && Took(db.rows[f], db'.rows[f], f, claim, now, settings, token)
  {
    var swept := Swept(db.rows, SweepIds(db.rows, types, now, busySweep));
    FirstSurvivesSweep(db.rows, f, types, now, settings, busySweep, busyPick);
    ClaimAnswers(db, GROUP, types, now, settings, busySweep, busyPick, token);
    hide *;
    var (db', claim) := ClaimTx(db, GROUP, types, now, settings, busySweep, busyPick, token);
    TheFirstIsTaken(swept, db'.rows, claim, f, types, now, settings, busyPick, token);
  }

  lemma TheFirstIsTaken(rows: Rows, rows': Rows, claim: Option<Claim>, f: Id, types: set<string>, now: Time,
                        settings: Settings, busy: set<Id>, token: Token)
    requires TookFirst(rows, rows', claim, types, now, settings, busy, token)
    requires StandsFirst(rows, f, types, now, busy) && Cutoff(rows[f], now, settings) > now
    ensures claim.Some? && f in rows' && Took(rows[f], rows'[f], f, claim, now, settings, token)
  {
    FirstIsDue(rows, f, types, now, busy);
    hide StandsFirst, Took, Due, Cutoff;
    var g :| && StandsFirst(rows, g, types, now, busy) && g in rows'
             && Took(rows[g], rows'[g], g, claim, now, settings, token);
    OnlyOneFirst(rows, f, g, types, now, busy);
    TookInTime(rows[f], rows'[f], f, claim, now, settings, token);
  }

  lemma FirstIsDue(rows: Rows, f: Id, types: set<string>, now: Time, busy: set<Id>)
    requires StandsFirst(rows, f, types, now, busy)
    ensures f !in busy && Due(rows, f, types, now)
  {
  }

  lemma TookInTime(r: Row, r': Row, id: Id, claim: Option<Claim>, now: Time, settings: Settings, token: Token)
    requires Took(r, r', id, claim, now, settings, token) && Cutoff(r, now, settings) > now
    ensures claim.Some?
  {
  }

  /** The worker took the message under a fresh token, one attempt on, with the receipts it had. */
  predicate Takes(s: State, a: Action, t: State, id: Id)
    requires a.ClaimOne?
  {
    && id in s.db.rows && id in t.db.rows && a.w in t.workers
    && var r, r', c := s.db.rows[id], t.db.rows[id], t.workers[a.w].claim;
    && c.messageId == id && c.token == a.token && c.receipts == r.receipts && c.attempts == r.attempts + 1
    && (t.workers[a.w].Preparing? <==> r.envelope.decodes)
    && r'.status == Processing && r'.token == Some(a.token) && r'.attempts == r.attempts + 1
    && r'.lease == Some(a.now + a.settings.leaseSeconds * SECOND)
    && r'.receipts == r.receipts && r'.fingerprint == r.fingerprint && r'.envelope == r.envelope
  }

  /** Unless its group is paused, the due message that stands first goes to the next worker that claims. */
  lemma FirstIsTaken(s: State, a: Action, t: State, id: Id)
    requires a.ClaimOne? && Next(s, a, t)
    requires GROUP in s.db.controls ==> !s.db.controls[GROUP].paused
    requires StandsFirst(s.db.rows, id, LEASED_TYPES, a.now, a.busyPick)
    requires Cutoff(s.db.rows[id], a.now, a.settings) > a.now
    ensures Takes(s, a, t, id)
  {
    hide StandsFirst, Cutoff, ClaimTx, FirstDue, HandedOut, SetAside;
    FirstIsHandedOut(s.db, id, LEASED_TYPES, a.now, a.settings, a.busySweep, a.busyPick, a.token);
    assert id in s.db.rows by {
      FirstIsDue(s.db.rows, id, LEASED_TYPES, a.now, a.busyPick);
    }
  }

  const LONGEST_LEASE: Time := 300 * SECOND

  /** No lease reaches further than the longest lease from now. */
  ghost predicate LeasesEnd(s: State) {
    forall id | id in s.db.rows && s.db.rows[id].lease.Some? :: s.db.rows[id].lease.value <= s.clock + LONGEST_LEASE
  }

  predicate LeaseFollows(s: State, a: Action, r: Row, r': Row) {
    r'.lease.Some? ==>
      r'.lease == r.lease || (a.ClaimOne? && r'.lease.value <= a.now + LONGEST_LEASE && a.now <= s.clock)
  }

  lemma ClaimLeases(s: State, a: Action, t: State, id: Id)
    requires a.ClaimOne? && Next(s, a, t) && id in s.db.rows
    ensures id in t.db.rows && LeaseFollows(s, a, s.db.rows[id], t.db.rows[id])
  {
    hide Next;
    ClaimEnabled(s, a, t);
    var claim := ClaimHasEffect(s, a, t);
    assert if claim.Some? && id == claim.value.messageId
           then HandedOut(id, s.db.rows[id], t.db.rows[id], claim.value, LEASED_TYPES, a.now, a.settings, a.token)
           else SetAside(s.db.rows[id], t.db.rows[id], LEASED_TYPES, a.now, a.settings);
  }

  lemma FencedLeases(s: State, a: Action, t: State, id: Id)
    requires WorkersOk(s) && (a.Bind? || a.Finish?) && Next(s, a, t) && id in s.db.rows
    ensures id in t.db.rows && LeaseFollows(s, a, s.db.rows[id], t.db.rows[id])
  {
    hide Next;
    if a.Bind? {
      BindHasEffect(s, a, t);
    } else {
      FinishHasEffect(s, a, t);
    }
    assert WorkerOk(s, s.workers[a.w]);
    hide WorkersOk, ClaimFits, PhaseFits;
  }

  lemma OrdinaryLeases(s: State, a: Action, t: State, id: Id)
    requires TableOk(s) && Ordinary(a) && Next(s, a, t) && id in s.db.rows
    ensures id in t.db.rows && LeaseFollows(s, a, s.db.rows[id], t.db.rows[id])
  {
    hide Next, EventIdsUnique, Leased;
    if a.OrdinaryClaim? {
      OrdinaryClaimHasEffect(s, a, t);
    } else if a.OrdinaryRecover? {
      OrdinaryRecoverHasEffect(s, a, t);
    } else {
      OrdinaryMarkHasEffect(s, a, t);
    }
    hide TableOk;
  }

  lemma LeaseStep(s: State, a: Action, t: State, id: Id)
    requires Inv(s) && Next(s, a, t) && id in s.db.rows
    ensures id in t.db.rows && LeaseFollows(s, a, s.db.rows[id], t.db.rows[id])
  {
    hide Next, RowsOk, TableOk, WorkersOk, WireOk, ProviderOk, ReceiptsOk;
    if a.ClaimOne? {
      ClaimLeases(s, a, t, id);
    } else if a.Bind? || a.Finish? {
      FencedLeases(s, a, t, id);
    } else if a.Replay? {
      ReplayHasEffect(s, a, t);
    } else if Ordinary(a) {
      OrdinaryLeases(s, a, t, id);
    } else if a.Add? {
      AddTouchesNoRow(s, a, t, id);
    } else {
      QuietStep(s, a, t);
    }
  }

  lemma {:induction false} RunLeasesEnd(states: seq<State>, actions: seq<Action>, i: nat)
    requires Run(states, actions) && i < |states|
    ensures LeasesEnd(states[i])
  {
    hide Next, Inv, RowsEvolve;
    if i > 0 {
      hide Initial;
      RunLeasesEnd(states, actions, i - 1);
      RunStep(states, actions, i - 1);
      HistoryOnlyGrows(states, actions, i - 1, i);
      var s, a, t := states[i - 1], actions[i - 1], states[i];
      forall id | id in t.db.rows && t.db.rows[id].lease.Some?
        ensures t.db.rows[id].lease.value <= t.clock + LONGEST_LEASE
      {
        if id in s.db.rows {
          LeaseStep(s, a, t, id);
        } else {
          NewRowHasNoLease(s, a, t, id);
          assert false;
        }
      }
    }
  }

  lemma NewRowHasNoLease(s: State, a: Action, t: State, id: Id)
    requires Inv(t) && Next(s, a, t) && id !in s.db.rows && id in t.db.rows
    ensures t.db.rows[id].lease.None?
  {
    NewRowIsUnheld(s, a, t, id);
    hide Next;
    assert RowOk(t.db.rows[id]);
  }

  /** In delivery means that every earlier version is published or skipped. */
  lemma HeldIsInTurn(states: seq<State>, actions: seq<Action>, i: nat, id: Id, k: Token)
    requires Run(states, actions) && i < |states|
    requires forall n | 0 <= n < |actions| :: AddedInOrder(states[n], actions[n])
    requires HeldUnder(states[i], id, k)
    ensures InTurn(states[i].db.rows, states[i].db.rows[id])
  {
    hide Next, Initial, AddedInOrder;
    var rows := states[i].db.rows;
    forall e | e in rows && rows[e].envelope.aggregate == rows[id].envelope.aggregate
               && rows[e].envelope.version < rows[id].envelope.version
      ensures rows[e].status == Published || rows[e].status == Skipped
    {
      DeliveredInOrder(states, actions, i, e, id);
    }
  }

  /** No other message that nobody has locked is due. */
  ghost predicate NothingElseDue(rows: Rows, id: Id, now: Time, busy: set<Id>) {
    forall x | x != id && x !in busy :: !Due(rows, x, LEASED_TYPES, now)
  }

  /**
   * A message whose worker crashed is not lost.  The longest lease after the crash, if no one
   * has taken the row from the dead worker yet, the next claim of a group that is not paused
   * hands it to a new worker, unless its attempts or its time have run out or another due
   * message is there to be taken.
   */
  lemma CrashedMessageIsReclaimed(states: seq<State>, actions: seq<Action>, i: nat, j: nat)
    requires Run(states, actions) && i < j < |actions|
    requires forall n | 0 <= n < |actions| :: AddedInOrder(states[n], actions[n])
    requires actions[i].Crash? && actions[j].ClaimOne? && actions[i].w in states[i].workers
    requires var c := states[i].workers[actions[i].w].claim; HeldUnder(states[j], c.messageId, c.token)
    requires actions[j].now >= states[i].clock + LONGEST_LEASE
    requires GROUP in states[j].db.controls ==> !states[j].db.controls[GROUP].paused
    requires var s, a, id := states[j], actions[j], states[i].workers[actions[i].w].claim.messageId;
             && id !in a.busyPick && NothingElseDue(s.db.rows, id, a.now, a.busyPick)
             && s.db.rows[id].attempts < s.db.rows[id].retryBudget
             && Cutoff(s.db.rows[id], a.now, a.settings) > a.now
    ensures Takes(states[j], actions[j], states[j + 1], states[i].workers[actions[i].w].claim.messageId)
    ensures var id := states[i].workers[actions[i].w].claim.messageId;
            && id in states[i].db.rows && id in states[j + 1].db.rows
            && states[j + 1].db.rows[id].attempts == states[i].db.rows[id].attempts + 1
            && states[j + 1].db.rows[id].receipts == states[i].db.rows[id].receipts
  {
    var s, a, c := states[j], actions[j], states[i].workers[actions[i].w].claim;
    var id := c.messageId;
    RunStep(states, actions, j);
    RunInv(states, actions, i);
    assert WorkerOk(states[i], states[i].workers[actions[i].w]);
    hide Next, Initial, AddedInOrder, RowsOk, TableOk, WireOk, ProviderOk, ReceiptsOk, WorkersOk, RowsEvolve, Cutoff,
         InTurn, NothingElseDue;
    HeldThroughout(states, actions, i, i, j, id, c.token);
    RunLeasesEnd(states, actions, i);
    HeldIsInTurn(states, actions, j, id, c.token);
    HeldIsLeased(s, id, c.token);
    AbandonedStandsFirst(s.db.rows, id, a.now, a.busyPick);
    hide Inv, LeasesEnd, Run, HeldUnder, StandsFirst;
    FirstIsTaken(s, a, states[j + 1], id);
  }

  lemma AbandonedStandsFirst(rows: Rows, id: Id, now: Time, busy: set<Id>)
    requires id in rows && id !in busy && Leased(rows[id]) && InTurn(rows, rows[id])
    requires rows[id].status == Processing && rows[id].lease.Some? && rows[id].lease.value <= now
    requires rows[id].attempts < rows[id].retryBudget && NothingElseDue(rows, id, now, busy)
    ensures StandsFirst(rows, id, LEASED_TYPES, now, busy)
  {
    hide InTurn;
  }

  lemma HeldIsLeased(s: State, id: Id, k: Token)
    requires Inv(s) && HeldUnder(s, id, k)
    ensures Leased(s.db.rows[id]) && s.db.rows[id].lease.Some?
  {
    assert RowOk(s.db.rows[id]);
  }

  // ---- the ordinary runner ---------------------------------------------------------

  /** A due ordinary message is started by the next batch, unless the batch is full of messages before it. */
  lemma DueOrdinaryIsStarted(s: State, a: Action, t: State, id: Id)
    requires a.OrdinaryClaim? && Next(s, a, t)
    requires id !in a.busy && DueOrdinary(s.db.rows, id, a.types, a.maxAttempts, a.now)
    ensures id in t.db.rows
    ensures var batch := Batch(s.db.rows, a.types, a.maxAttempts, a.limit, a.now, a.busy);
            || (&& t.db.rows[id].status == Processing && t.db.rows[id].attempts == s.db.rows[id].attempts + 1
                && t.db.rows[id].token.None? && id in t.batched)
            || (|batch| == a.limit && forall x | x in batch :: x in s.db.rows && OccurredEarlier(s.db.rows, x, id))
  {
    hide Next, Batch, BatchTx;
    OrdinaryClaimIsBatch(s, a, t);
    var batch := Batch(s.db.rows, a.types, a.maxAttempts, a.limit, a.now, a.busy);
    BatchAnswers(s.db.rows, a.types, a.maxAttempts, a.limit, a.now, a.busy, id);
    OrdinaryAnswers(s.db.rows, batch, id, "", a.now);
  }

  /** What a mark or a recovery of the ordinary runner does to a message it names. */
  lemma OrdinaryMarkAnswers(s: State, a: Action, t: State, id: Id)
    requires (a.OrdinaryPublish? || a.OrdinaryFail? || a.OrdinaryRecover?) && Next(s, a, t) && id in s.db.rows
    requires if a.OrdinaryRecover? then id in a.stale else a.id == id && s.db.rows[id].status == Processing
    ensures id in t.db.rows
    ensures a.OrdinaryPublish? && s.db.rows[id].token.None? ==>
              t.db.rows[id].status == Published && t.db.rows[id].publishedAt == Some(a.at)
    ensures a.OrdinaryFail? || a.OrdinaryRecover? ==>
              t.db.rows[id].status == Failed && t.db.rows[id].availableAt == a.availableAt
  {
    OrdinaryAnswers(s.db.rows, if a.OrdinaryRecover? then a.stale else [], id, if a.OrdinaryFail? then a.code else "",
                    if a.OrdinaryPublish? then a.at else a.availableAt);
    assert t.db.rows == if a.OrdinaryPublish? then MarkPublishedTx(s.db.rows, a.id, a.at).0
                        else if a.OrdinaryFail? then MarkFailedTx(s.db.rows, a.id, a.code, a.availableAt).0
                        else RecoverTx(s.db.rows, a.stale, a.availableAt);
    hide Next, MarkPublishedTx, MarkFailedTx, RecoverTx;
  }

  // ---- a stopped group rests -------------------------------------------------------

  /** An operator can resume a paused group, and only that; it changes nothing but the pause. */
  lemma ResumeAnswers(s: State, t: State)
    ensures Enabled(s, Resume) <==> GroupPaused(s)
    ensures Next(s, Resume, t) ==>
              && t == s.(db := t.db) && t.db.rows == s.db.rows && t.db.controls.Keys == s.db.controls.Keys
              && !t.db.controls[GROUP].paused && t.db.controls[GROUP].heartbeatAt == s.db.controls[GROUP].heartbeatAt
              && forall g | g in s.db.controls && g != GROUP :: t.db.controls[g] == s.db.controls[g]
  {
  }

  /** A worker may crash at any moment, and leaves the tables as they are. */
  lemma CrashAnswers(s: State, w: Worker)
    requires w in s.workers
    ensures Enabled(s, Crash(w))
    ensures var t := Apply(s, Crash(w));
            t.db == s.db && t.workers == s.workers - {w} && t.wire == s.wire && t.accepted == s.accepted
  {
  }

  predicate GroupPaused(s: State) {
    GROUP in s.db.controls && s.db.controls[GROUP].paused
  }

  lemma ClaimWrites(s: State, a: Action, t: State)
    requires a.ClaimOne? && Next(s, a, t)
    ensures var (db, claim) := ClaimTx(s.db, GROUP, LEASED_TYPES, a.now, a.settings, a.busySweep, a.busyPick, a.token);
            && t.db == db
            && (claim.None? ==> t.workers == s.workers && t.issued == s.issued && t.unbound == s.unbound)
  {
    hide ClaimTx, FirstDue;
  }

  lemma FencedWrites(s: State, a: Action, t: State)
    requires (a.Bind? || a.Finish?) && Next(s, a, t)
    ensures a.w in s.workers
    ensures a.Bind? ==>
              var p := s.workers[a.w];
              && p.Binding?
              && t.db == BindTx(s.db, GROUP, p.claim, p.delivery.submission.fingerprint, p.delivery.expiresAt,
                                a.ownedAt, a.now).0
    ensures a.Finish? ==>
              var p := s.workers[a.w];
              && p.Finishing? && p.claim.attempts >= 1
              && t.db == FinishTx(s.db, GROUP, p.claim, p.outcome,
                                  NextDelay(p.claim.attempts, p.outcome, a.jitter).value, a.ownedAt, a.now).0
  {
    hide BindTx, FinishTx, NextDelay;
  }

  lemma OthersKeepControls(s: State, a: Action, t: State)
    requires !a.ClaimOne? && !a.Bind? && !a.Finish? && !a.Resume? && Next(s, a, t)
    ensures t.db.controls == s.db.controls
  {
    hide Batch, BatchTx, RecoverTx, ReplayTx;
  }

  /** Only an operator's resume ends a pause, and a control row is never lost. */
  lemma PauseStep(s: State, a: Action, t: State)
    requires Next(s, a, t)
    ensures GROUP in s.db.controls || a.ClaimOne? ==> GROUP in t.db.controls
    ensures GroupPaused(s) && !a.Resume? ==> GroupPaused(t)
  {
    if a.Resume? {
      hide *;
      ResumeKeepsControl(s, a, t);
      return;
    }
    hide Next, ClaimTx, BindTx, FinishTx, TookFirst, EndsAs, Merged;
    if a.ClaimOne? {
      ClaimWrites(s, a, t);
      if GroupPaused(s) {
        PausedAnswers(s.db, GROUP, LEASED_TYPES, a.now, a.settings, a.busySweep, a.busyPick, a.token);
      } else {
        ClaimAnswers(s.db, GROUP, LEASED_TYPES, a.now, a.settings, a.busySweep, a.busyPick, a.token);
      }
    } else if a.Bind? {
      FencedWrites(s, a, t);
      var p := s.workers[a.w];
      BindAnswers(s.db, GROUP, p.claim, p.delivery.submission.fingerprint, p.delivery.expiresAt, a.ownedAt, a.now);
    } else if a.Finish? {
      FencedWrites(s, a, t);
      var p := s.workers[a.w];
      FinishAnswers(s.db, GROUP, p.claim, p.outcome, NextDelay(p.claim.attempts, p.outcome, a.jitter).value, a.ownedAt,
                    a.now);
    } else {
      OthersKeepControls(s, a, t);
    }
  }

  lemma ResumeKeepsControl(s: State, a: Action, t: State)
    requires a.Resume? && Next(s, a, t)
    ensures GROUP in t.db.controls
  {
  }

  /** Claims create the control row, so a group with workers has one. */
  lemma {:induction false} WorkersHaveControl(states: seq<State>, actions: seq<Action>, i: nat)
    requires Run(states, actions) && i < |states|
    ensures states[i].workers != map[] ==> GROUP in states[i].db.controls
  {
    hide Next;
    if i > 0 {
      hide Initial;
      WorkersHaveControl(states, actions, i - 1);
      var s, a, t := states[i - 1], actions[i - 1], states[i];
      PauseStep(s, a, t);
      if t.workers != map[] && !a.ClaimOne? {
        NoWorkerFromNowhere(s, a, t);
      }
    }
  }

  lemma NoWorkerFromNowhere(s: State, a: Action, t: State)
    requires Next(s, a, t) && !a.ClaimOne? && t.workers != map[]
    ensures s.workers != map[]
  {
    var w :| w in t.workers;
    FrameStep(s, a, t);
    if Actor(a).Some? {
      ActorIsThere(s, a, t);
    }
  }

  lemma ActorIsThere(s: State, a: Action, t: State)
    requires Next(s, a, t) && !a.ClaimOne? && Actor(a).Some?
    ensures Actor(a).value in s.workers
  {
    hide Apply, Replayable, Honest, WellFormed, Stale;
  }

  lemma {:induction false} PauseLasts(states: seq<State>, actions: seq<Action>, i: nat, j: nat)
    requires Run(states, actions) && i <= j < |states| && GroupPaused(states[i])
    requires forall n | i <= n < j :: !actions[n].Resume?
    ensures GroupPaused(states[j])
  {
    hide Next, Initial, GroupPaused;
    if i < j {
      PauseLasts(states, actions, i, j - 1);
      PauseStep(states[j - 1], actions[j - 1], states[j]);
    }
  }

  /**
   * The step stops its group: a bind that holds the fence and meets other content than was
   * bound, or a finish that holds it with a blocking outcome.
   */
  predicate StopsGroup(s: State, a: Action) {
    && (a.Bind? || a.Finish?) && a.w in s.workers
    && var p := s.workers[a.w];
    && Fences(s.db.rows, p.claim, a.ownedAt)
    && (a.Bind? ==>
          && p.Binding?
          && s.db.rows[p.claim.messageId].fingerprint.Some?
          && s.db.rows[p.claim.messageId].fingerprint.value != p.delivery.submission.fingerprint)
    && (a.Finish? ==> p.Finishing? && p.outcome.kind == Block)
  }

  lemma StoppingPauses(states: seq<State>, actions: seq<Action>, i: nat)
    requires Run(states, actions) && i < |actions| && StopsGroup(states[i], actions[i])
    ensures GroupPaused(states[i + 1])
    ensures var id := states[i].workers[actions[i].w].claim.messageId;
            id in states[i + 1].db.rows && states[i + 1].db.rows[id].status == Blocked
  {
    var s, a, t := states[i], actions[i], states[i + 1];
    var p := s.workers[a.w];
    WorkersHaveControl(states, actions, i);
    assert Next(s, a, t);
    hide Run, Next, BindTx, FinishTx, Merged;
    FencedWrites(s, a, t);
    if a.Bind? {
      BindAnswers(s.db, GROUP, p.claim, p.delivery.submission.fingerprint, p.delivery.expiresAt, a.ownedAt, a.now);
    } else {
      FinishAnswers(s.db, GROUP, p.claim, p.outcome, NextDelay(p.claim.attempts, p.outcome, a.jitter).value, a.ownedAt,
                    a.now);
    }
  }

  /**
   * Changed content and blocking outcomes stop the group: from then until an operator resumes
   * it, no claim hands out or touches any message.
   */
  lemma StoppedGroupRests(states: seq<State>, actions: seq<Action>, i: nat, j: nat)
    requires Run(states, actions) && i < j < |actions| && StopsGroup(states[i], actions[i])
    requires forall n | i < n < j :: !actions[n].Resume?
    requires actions[j].ClaimOne?
    ensures states[j + 1].db.rows == states[j].db.rows && states[j + 1].workers == states[j].workers
    ensures states[j + 1].issued == states[j].issued
    ensures GroupPaused(states[j + 1])
  {
    hide Next, Initial, StopsGroup, ClaimTx;
    var s, a := states[j], actions[j];
    StoppingPauses(states, actions, i);
    PauseLasts(states, actions, i + 1, j);
    PauseStep(s, a, states[j + 1]);
    ClaimWrites(s, a, states[j + 1]);
    PausedAnswers(s.db, GROUP, LEASED_TYPES, a.now, a.settings, a.busySweep, a.busyPick, a.token);
  }

  // ---- the dead stay dead ----------------------------------------------------------

  predicate Parked(r: Row) {
    r.status == Dead || r.status == Blocked
  }

  lemma ClaimSparesParked(s: State, a: Action, t: State, id: Id)
    requires a.ClaimOne? && Next(s, a, t) && id in s.db.rows && Parked(s.db.rows[id])
    ensures id in t.db.rows && t.db.rows[id] == s.db.rows[id]
    ensures forall k :: !Hands(s, a, t, id, k)
  {
    hide Next;
    var claim := ClaimHasEffect(s, a, t);
    assert if claim.Some? && id == claim.value.messageId
           then HandedOut(id, s.db.rows[id], t.db.rows[id], claim.value, LEASED_TYPES, a.now, a.settings, a.token)
           else SetAside(s.db.rows[id], t.db.rows[id], LEASED_TYPES, a.now, a.settings);
  }

  lemma FencedSparesParked(s: State, a: Action, t: State, id: Id)
    requires WorkersOk(s) && (a.Bind? || a.Finish?) && Next(s, a, t) && id in s.db.rows && Parked(s.db.rows[id])
    ensures id in t.db.rows && t.db.rows[id] == s.db.rows[id]
  {
    hide Next;
    if a.Bind? {
      BindHasEffect(s, a, t);
    } else {
      FinishHasEffect(s, a, t);
    }
    assert WorkerOk(s, s.workers[a.w]);
    hide WorkersOk, ClaimFits, PhaseFits;
  }

  lemma OrdinarySparesParked(s: State, a: Action, t: State, id: Id)
    requires TableOk(s) && Ordinary(a) && Next(s, a, t) && id in s.db.rows && Parked(s.db.rows[id])
    ensures id in t.db.rows && t.db.rows[id] == s.db.rows[id]
  {
    hide Next, EventIdsUnique, Leased;
    if a.OrdinaryClaim? {
      OrdinaryClaimHasEffect(s, a, t);
    } else if a.OrdinaryRecover? {
      OrdinaryRecoverHasEffect(s, a, t);
    } else {
      OrdinaryMarkHasEffect(s, a, t);
    }
    hide TableOk;
  }

  lemma ParkedStep(s: State, a: Action, t: State, id: Id)
    requires Inv(s) && Next(s, a, t) && id in s.db.rows && Parked(s.db.rows[id])
    requires a.Replay? ==> a.id != id
    ensures id in t.db.rows && t.db.rows[id] == s.db.rows[id]
  {
    hide Next, RowsOk, TableOk, WorkersOk, WireOk, ProviderOk, ReceiptsOk, Parked;
    if a.ClaimOne? {
      ClaimSparesParked(s, a, t, id);
    } else if a.Bind? || a.Finish? {
      FencedSparesParked(s, a, t, id);
    } else if a.Replay? {
      ReplayHasEffect(s, a, t);
    } else if Ordinary(a) {
      OrdinarySparesParked(s, a, t, id);
    } else if a.Add? {
      AddTouchesNoRow(s, a, t, id);
    } else {
      QuietStep(s, a, t);
    }
  }

  /** A dead or blocked message stays exactly as it is until an operator replays it. */
  lemma {:induction false} ParkedStays(states: seq<State>, actions: seq<Action>, i: nat, j: nat, id: Id)
    requires Run(states, actions) && i <= j < |states| && id in states[i].db.rows && Parked(states[i].db.rows[id])
    requires forall n | i <= n < j && actions[n].Replay? :: actions[n].id != id
    ensures id in states[j].db.rows && states[j].db.rows[id] == states[i].db.rows[id]
  {
    hide Next, Initial, Inv, RowsEvolve, Parked;
    if i < j {
      ParkedStays(states, actions, i, j - 1, id);
      RunStep(states, actions, j - 1);
      ParkedStep(states[j - 1], actions[j - 1], states[j], id);
    }
  }

  /** The step rejects message id for good: a finish that holds the fence with a permanent outcome. */
  predicate Rejects(s: State, a: Action, id: Id) {
    && a.Finish? && a.w in s.workers && s.workers[a.w].Finishing? && s.workers[a.w].outcome.kind == Permanent
    && s.workers[a.w].claim.messageId == id && Fences(s.db.rows, s.workers[a.w].claim, a.ownedAt)
  }

  lemma RejectionKills(s: State, a: Action, t: State, id: Id)
    requires Next(s, a, t) && Rejects(s, a, id)
    ensures id in t.db.rows && t.db.rows[id].status == Dead
  {
    hide Next, FinishTx, Merged;
    FencedWrites(s, a, t);
    var p := s.workers[a.w];
    FinishAnswers(s.db, GROUP, p.claim, p.outcome, NextDelay(p.claim.attempts, p.outcome, a.jitter).value, a.ownedAt,
                  a.now);
  }

  /** A message the provider rejected is dead, and no claim hands it out before it is replayed. */
  lemma RejectedIsNotRetried(states: seq<State>, actions: seq<Action>, i: nat, j: nat, id: Id, k: Token)
    requires Run(states, actions) && i < j < |actions| && Rejects(states[i], actions[i], id)
    requires forall n | i < n < j && actions[n].Replay? :: actions[n].id != id
    ensures id in states[j].db.rows && states[j].db.rows[id].status == Dead
    ensures !Hands(states[j], actions[j], states[j + 1], id, k)
  {
    hide Next, Initial, Rejects;
    RejectionKills(states[i], actions[i], states[i + 1], id);
    ParkedStays(states, actions, i + 1, j, id);
    if actions[j].ClaimOne? {
      ClaimSparesParked(states[j], actions[j], states[j + 1], id);
    }
  }
}
