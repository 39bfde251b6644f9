/** Versions of one aggregate are delivered in order, across both runners. */
module Ordering {
  import opened Basics
  import opened OutboxModel
  import opened OutboxTransactions
  import opened Protocol
  import opened RowLemmas
  import opened Invariant
  import opened Preservation
  import opened Guarantees

  /** Events of an aggregate are staged in increasing version order. */
  predicate AddedInOrder(s: State, a: Action) {
    a.Add? ==> forall x | x in s.db.rows && s.db.rows[x].envelope.aggregate == a.envelope.aggregate ::
      s.db.rows[x].envelope.version < a.envelope.version
  }

  /** e no longer stands in the way of r: published, or skipped when r belongs to the leased runner. */
  predicate OutOfTheWay(e: Row, r: Row) {
    e.status == Published || (Leased(r) && e.status == Skipped)
  }

  /** Whatever was ever claimed has every earlier version of its aggregate out of the way. */
  ghost predicate Ordered(s: State) {
    forall x, y | x in s.db.rows && y in s.db.rows
                  && SameAggregateEarlier(s.db.rows[x], s.db.rows[y]) && s.db.rows[y].attempts > 0 ::
      OutOfTheWay(s.db.rows[x], s.db.rows[y])
  }

  lemma OutOfTheWayStays(e: Row, e': Row, r: Row, r': Row)
    requires OutOfTheWay(e, r) && Evolves(e, e') && Evolves(r, r')
    ensures OutOfTheWay(e', r')
  {
  }

  lemma SweepHidesNothing(rows: Rows, ids: seq<Id>, r: Row, x: Id)
    requires !Overtaking(Swept(rows, ids), r) && x in rows && SameAggregateEarlier(rows[x], r)
    ensures rows[x].status == Published || rows[x].status == Skipped
  {
    assert x in Swept(rows, ids);
  }

  /** A leased claim starts an attempt only where nothing earlier is unfinished. */
  lemma ClaimRowsOrdered(rows: Rows, types: set<string>, now: Time, settings: Settings, busySweep: set<Id>,
                         busyPick: set<Id>, token: Token, x: Id, y: Id)
    requires x in rows && y in rows && SameAggregateEarlier(rows[x], rows[y])
    ensures var (rows', claim) := ClaimRows(rows, types, now, settings, busySweep, busyPick, token);
            && y in rows'
            && (rows'[y].attempts > rows[y].attempts ==> rows[x].status == Published || rows[x].status == Skipped)
  {
    var ids := SweepIds(rows, types, now, busySweep);
    ClaimRowsMeaning(rows, types, now, settings, busySweep, busyPick, token);
    ClaimedIsFirst(rows, types, now, settings, busySweep, busyPick, token);
    var claim := ClaimRows(rows, types, now, settings, busySweep, busyPick, token).1;
    hide ClaimRows, SweepIds, Swept, ClaimIds, Overtaking, SameAggregateEarlier;
    if claim.Some? && claim.value.messageId == y {
      PickedIsUntouched(rows, ids, types, now, busyPick);
      SweepHidesNothing(rows, ids, rows[y], x);
    }
  }

  lemma ClaimedIsFirst(rows: Rows, types: set<string>, now: Time, settings: Settings, busySweep: set<Id>,
                       busyPick: set<Id>, token: Token)
    ensures var claim := ClaimRows(rows, types, now, settings, busySweep, busyPick, token).1;
            var swept := Swept(rows, SweepIds(rows, types, now, busySweep));
            var ready := ClaimIds(swept, types, now, busyPick);
            claim.Some? ==> ready != {} && ready <= swept.Keys && claim.value.messageId == First(swept, ready)
  {
    hide SweepIds, Swept;
  }

  lemma ClaimWritesRows(s: State, a: Action, t: State)
    requires a.ClaimOne? && Next(s, a, t)
    ensures || t.db.rows == s.db.rows
            || t.db.rows == ClaimRows(s.db.rows, LEASED_TYPES, a.now, a.settings, a.busySweep, a.busyPick, a.token).0
  {
    hide ClaimRows;
  }

  lemma ClaimStartsInOrder(s: State, a: Action, t: State, x: Id, y: Id)
    requires a.ClaimOne? && Next(s, a, t)
    requires x in s.db.rows && y in s.db.rows && SameAggregateEarlier(s.db.rows[x], s.db.rows[y])
    ensures y in t.db.rows
    ensures t.db.rows[y].attempts > s.db.rows[y].attempts ==>
              s.db.rows[x].status == Published || s.db.rows[x].status == Skipped
  {
    ClaimWritesRows(s, a, t);
    hide Next, ClaimRows, SameAggregateEarlier;
    ClaimRowsOrdered(s.db.rows, LEASED_TYPES, a.now, a.settings, a.busySweep, a.busyPick, a.token, x, y);
  }

  lemma BatchStartsInOrder(s: State, a: Action, t: State, x: Id, y: Id)
    requires a.OrdinaryClaim? && Next(s, a, t)
    requires x in s.db.rows && y in s.db.rows && SameAggregateEarlier(s.db.rows[x], s.db.rows[y])
    ensures y in t.db.rows
    ensures t.db.rows[y].attempts > s.db.rows[y].attempts ==> s.db.rows[x].status == Published
  {
    hide Next, Batch;
    OrdinaryClaimIsBatch(s, a, t);
    var batch := Batch(s.db.rows, a.types, a.maxAttempts, a.limit, a.now, a.busy);
    if y in batch {
      assert OrdinaryClaimable(s.db.rows, s.db.rows[y], a.types, a.maxAttempts, a.now);
    }
  }

  lemma FencedStartsNothing(s: State, a: Action, t: State, y: Id)
    requires WorkersOk(s) && (a.Bind? || a.Finish?) && Next(s, a, t) && y in s.db.rows
    ensures y in t.db.rows && t.db.rows[y].attempts == s.db.rows[y].attempts
  {
    hide Next;
    if a.Bind? {
      BindHasEffect(s, a, t);
    } else {
      FinishHasEffect(s, a, t);
    }
    assert WorkerOk(s, s.workers[a.w]);
    hide WorkersOk, WorkerOk;
  }

  lemma ReplayStartsNothing(s: State, a: Action, t: State, y: Id)
    requires a.Replay? && Next(s, a, t) && y in s.db.rows
    ensures y in t.db.rows && t.db.rows[y].attempts == s.db.rows[y].attempts
  {
    hide Next;
    ReplayHasEffect(s, a, t);
  }

  lemma OthersStartNothing(s: State, a: Action, t: State, y: Id)
    requires WorkersOk(s) && !a.ClaimOne? && !a.OrdinaryClaim? && Next(s, a, t) && y in s.db.rows
    ensures y in t.db.rows && t.db.rows[y].attempts == s.db.rows[y].attempts
  {
    hide Next, WorkersOk;
    if a.Bind? || a.Finish? {
      FencedStartsNothing(s, a, t, y);
    } else if a.Replay? {
      ReplayStartsNothing(s, a, t, y);
    } else if a.Add? {
      AddTouchesNoRow(s, a, t, y);
    } else if a.OrdinaryPublish? || a.OrdinaryFail? || a.OrdinaryRecover? {
      MarksStartNothing(s, a, t, y);
    } else {
      QuietStep(s, a, t);
    }
  }

  lemma MarksStartNothing(s: State, a: Action, t: State, y: Id)
    requires (a.OrdinaryPublish? || a.OrdinaryFail? || a.OrdinaryRecover?) && Next(s, a, t) && y in s.db.rows
    ensures y in t.db.rows && t.db.rows[y].attempts == s.db.rows[y].attempts
  {
  }

  lemma NewestIsUnclaimed(s: State, a: Action, t: State)
    requires a.Add? && AddedInOrder(s, a) && Next(s, a, t)
    ensures a.id !in s.db.rows && t.db.rows == s.db.rows[a.id := NewRow(a.envelope, a.availableAt)]
    ensures forall y | y in s.db.rows :: !SameAggregateEarlier(t.db.rows[a.id], s.db.rows[y])
  {
    assert t == WithRows(s, s.db.rows[a.id := NewRow(a.envelope, a.availableAt)]) && a.id !in s.db.rows;
    hide Next;
  }

  lemma OrderStep(s: State, a: Action, t: State)
    requires Inv(s) && Ordered(s) && AddedInOrder(s, a) && Next(s, a, t) && RowsEvolve(s, a, t)
    ensures Ordered(t)
  {
    hide Next, RowsOk, TableOk, WorkersOk, WireOk, ProviderOk, ReceiptsOk, RowsEvolve, OutOfTheWay, AddedInOrder;
    forall x, y | x in t.db.rows && y in t.db.rows
                  && SameAggregateEarlier(t.db.rows[x], t.db.rows[y]) && t.db.rows[y].attempts > 0
      ensures OutOfTheWay(t.db.rows[x], t.db.rows[y])
    {
      PairStep(s, a, t, x, y);
    }
  }

  lemma PairStep(s: State, a: Action, t: State, x: Id, y: Id)
    requires Inv(s) && Ordered(s) && AddedInOrder(s, a) && Next(s, a, t) && RowsEvolve(s, a, t)
    requires x in t.db.rows && y in t.db.rows
    requires SameAggregateEarlier(t.db.rows[x], t.db.rows[y]) && t.db.rows[y].attempts > 0
    ensures OutOfTheWay(t.db.rows[x], t.db.rows[y])
  {
    hide Next, RowsOk, TableOk, WorkersOk, WireOk, ProviderOk, ReceiptsOk, RowsEvolve, AddedInOrder;
    if a.Add? {
      NewestIsUnclaimed(s, a, t);
    } else {
      TableOrClaimKeys(s, a, t);
      RowsEvolveAt(s, a, t, x);
      RowsEvolveAt(s, a, t, y);
      var e, r := s.db.rows[x], s.db.rows[y];
      assert SameAggregateEarlier(e, r);
      if r.attempts == 0 {
        if a.ClaimOne? {
          ClaimStartsInOrder(s, a, t, x, y);
          ClaimTouchesLeased(s, a, t, y);
        } else if a.OrdinaryClaim? {
          BatchStartsInOrder(s, a, t, x, y);
        } else {
          OthersStartNothing(s, a, t, y);
        }
      }
      assert OutOfTheWay(e, r);
      hide OutOfTheWay, Ordered, SameAggregateEarlier, Fenced, Evolves;
      OutOfTheWayStays(e, t.db.rows[x], r, t.db.rows[y]);
    }
  }

  lemma TableOrClaimKeys(s: State, a: Action, t: State)
    requires Next(s, a, t) && !a.Add?
    ensures t.db.rows.Keys == s.db.rows.Keys
  {
    hide Next;
    if a.ClaimOne? {
      var claim := ClaimHasEffect(s, a, t);
    } else {
      TableHasEffect(s, a, t);
    }
  }

  lemma ClaimTouchesLeased(s: State, a: Action, t: State, y: Id)
    requires a.ClaimOne? && Next(s, a, t) && y in s.db.rows
    ensures y in t.db.rows && (t.db.rows[y] != s.db.rows[y] ==> Leased(s.db.rows[y]))
  {
    hide Next;
    var claim := ClaimHasEffect(s, a, t);
    assert if claim.Some? && claim.value.messageId == y
           then HandedOut(y, s.db.rows[y], t.db.rows[y], claim.value, LEASED_TYPES, a.now, a.settings, a.token)
           else SetAside(s.db.rows[y], t.db.rows[y], LEASED_TYPES, a.now, a.settings);
  }

  lemma {:induction false} RunOrdered(states: seq<State>, actions: seq<Action>, i: nat)
    requires Run(states, actions) && i < |states|
    requires forall k | 0 <= k < |actions| :: AddedInOrder(states[k], actions[k])
    ensures Ordered(states[i])
  {
    hide Next, Inv, RowsEvolve, AddedInOrder;
    if i > 0 {
      hide Initial, Ordered;
      RunOrdered(states, actions, i - 1);
      RunStep(states, actions, i - 1);
      OrderStep(states[i - 1], actions[i - 1], states[i]);
    }
  }

  /**
   * When versions are staged in increasing order, a message that was ever claimed, is in
   * delivery or is published has every earlier version of its aggregate finished: published
   * for an ordinary message, published or skipped for a leased one.
   */
  lemma DeliveredInOrder(states: seq<State>, actions: seq<Action>, i: nat, x: Id, y: Id)
    requires Run(states, actions) && i < |states|
    requires forall k | 0 <= k < |actions| :: AddedInOrder(states[k], actions[k])
    requires x in states[i].db.rows && y in states[i].db.rows
    requires SameAggregateEarlier(states[i].db.rows[x], states[i].db.rows[y])
    requires var r := states[i].db.rows[y]; r.attempts > 0 || r.status == Processing || r.status == Published
    ensures var e := states[i].db.rows[x];
            e.status == Published || (Leased(states[i].db.rows[y]) && e.status == Skipped)
  {
    hide Next, Initial, AddedInOrder;
    RunOrdered(states, actions, i);
    RunInv(states, actions, i);
    assert RowOk(states[i].db.rows[y]);
  }

  /** One ordinary batch never holds two versions of one aggregate. */
  lemma BatchHoldsOneVersion(rows: Rows, types: Option<set<string>>, maxAttempts: nat, limit: nat, now: Time,
                             busy: set<Id>, x: Id, y: Id)
    requires x in Batch(rows, types, maxAttempts, limit, now, busy)
    requires y in Batch(rows, types, maxAttempts, limit, now, busy)
    ensures !SameAggregateEarlier(rows[x], rows[y])
  {
    assert OrdinaryClaimable(rows, rows[x], types, maxAttempts, now);
    assert OrdinaryClaimable(rows, rows[y], types, maxAttempts, now);
  }
}
