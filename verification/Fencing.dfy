/** Superseded claims are powerless, and an applied claim had its row to itself. */
module Fencing {
  import opened Basics
  import opened OutboxModel
  import opened OutboxTransactions
  import opened Protocol
  import opened RowLemmas
  import opened Invariant
  import opened Preservation
  import opened Guarantees

  /** The row is processing under token k. */
  predicate HeldUnder(s: State, id: Id, k: Token) {
    id in s.db.rows && Holds(s.db.rows[id], k)
  }

  lemma BinderKeepsAttempt(s: State, a: Action, t: State, id: Id)
    requires WorkersOk(s) && a.Bind? && Next(s, a, t) && id in s.db.rows
    ensures a.w in s.workers && id in t.db.rows
    ensures t.db.rows[id] == s.db.rows[id]
            || (s.db.rows[id].token == Some(s.workers[a.w].claim.token) && s.db.rows[id].status == Processing)
  {
    hide Next;
    BindHasEffect(s, a, t);
    assert WorkerOk(s, s.workers[a.w]);
  }

  /** A token that is held after a step was held before it, or was issued by it. */
  lemma HeldStep(s: State, a: Action, t: State, id: Id, k: Token)
    requires Inv(s) && Next(s, a, t) && RowsEvolve(s, a, t)
    requires k in s.issued && HeldUnder(t, id, k)
    ensures HeldUnder(s, id, k)
    ensures s.db.rows[id].attempts == t.db.rows[id].attempts && s.db.rows[id].receipts == t.db.rows[id].receipts
    ensures s.db.rows[id].lease == t.db.rows[id].lease
  {
    hide Next, WorkersOk, WireOk, ProviderOk, ReceiptsOk, RowsEvolve;
    if id !in s.db.rows {
      NewRowIsUnheld(s, a, t, id);
    } else {
      RowsEvolveAt(s, a, t, id);
      if a.Bind? {
        BinderKeepsAttempt(s, a, t, id);
        BindAttempts(s, a, t, id);
      } else if a.ClaimOne? {
        ClaimTokenIsNew(s, a, t, id);
      } else {
        NonClaimHeld(s, a, t, id, k);
      }
    }
  }

  lemma NewRowIsUnheld(s: State, a: Action, t: State, id: Id)
    requires Next(s, a, t) && id !in s.db.rows && id in t.db.rows
    ensures t.db.rows[id].token.None?
  {
    if a.ClaimOne? {
      var claim := ClaimHasEffect(s, a, t);
    } else if a.Add? {
      assert t == WithRows(s, s.db.rows[a.id := NewRow(a.envelope, a.availableAt)]);
      hide Next;
    } else {
      TableHasEffect(s, a, t);
    }
  }

  lemma BindAttempts(s: State, a: Action, t: State, id: Id)
    requires WorkersOk(s) && a.Bind? && Next(s, a, t) && id in s.db.rows
    ensures id in t.db.rows
    ensures t.db.rows[id].attempts == s.db.rows[id].attempts && t.db.rows[id].receipts == s.db.rows[id].receipts
    ensures t.db.rows[id].token.Some? ==>
              t.db.rows[id].token == s.db.rows[id].token && t.db.rows[id].lease == s.db.rows[id].lease
  {
    hide Next;
    BindHasEffect(s, a, t);
    assert WorkerOk(s, s.workers[a.w]);
  }

  lemma ClaimTokenIsNew(s: State, a: Action, t: State, id: Id)
    requires a.ClaimOne? && Next(s, a, t) && id in s.db.rows
    ensures id in t.db.rows
    ensures t.db.rows[id] == s.db.rows[id] || t.db.rows[id].token == Some(a.token)
            || t.db.rows[id].status != Processing
    ensures a.token !in s.issued
  {
    hide Next;
    ClaimEnabled(s, a, t);
    var claim := ClaimHasEffect(s, a, t);
    assert if claim.Some? && claim.value.messageId == id
           then HandedOut(id, s.db.rows[id], t.db.rows[id], claim.value, LEASED_TYPES, a.now, a.settings, a.token)
           else SetAside(s.db.rows[id], t.db.rows[id], LEASED_TYPES, a.now, a.settings);
  }

  lemma NonClaimHeld(s: State, a: Action, t: State, id: Id, k: Token)
    requires RowsEvolve(s, a, t) && id in s.db.rows && !a.Bind? && k in s.issued && HeldUnder(t, id, k)
    ensures t.db.rows[id] == s.db.rows[id]
  {
    hide Evolves;
  }

  /** A claim that lost its row never holds it again. */
  lemma {:induction false} LostForGood(states: seq<State>, actions: seq<Action>, i: nat, j: nat, id: Id, k: Token)
    requires Run(states, actions) && i <= j < |states|
    requires k in states[i].issued && !HeldUnder(states[i], id, k)
    ensures k in states[j].issued && !HeldUnder(states[j], id, k)
  {
    hide Next, Initial, Inv, HeldUnder, RowsEvolve;
    if i < j {
      LostForGood(states, actions, i, j - 1, id, k);
      RunStep(states, actions, j - 1);
      HistoryOnlyGrows(states, actions, j - 1, j);
      if HeldUnder(states[j], id, k) {
        HeldStep(states[j - 1], actions[j - 1], states[j], id, k);
        assert false;
      }
    }
  }

  /** If a claim holds its row at two moments, it held it all the time between, on one attempt. */
  lemma {:induction false} HeldThroughout(states: seq<State>, actions: seq<Action>, i: nat, m: nat, j: nat, id: Id,
                                          k: Token)
    requires Run(states, actions) && i <= m <= j < |states|
    requires k in states[i].issued && HeldUnder(states[j], id, k)
    ensures HeldUnder(states[m], id, k)
    ensures states[m].db.rows[id].attempts == states[j].db.rows[id].attempts
    ensures states[m].db.rows[id].receipts == states[j].db.rows[id].receipts
    ensures states[m].db.rows[id].lease == states[j].db.rows[id].lease
    decreases j - m
  {
    hide Next, Initial, Inv, RowsEvolve, Holds;
    if m < j {
      HeldThroughout(states, actions, i, m + 1, j, id, k);
      RunStep(states, actions, m);
      HistoryOnlyGrows(states, actions, i, m);
      HeldStep(states[m], actions[m], states[m + 1], id, k);
    }
  }

  /** The token a bind or finish step presents. */
  function Presented(s: State, a: Action): Option<Claim> {
    if (a.Bind? || a.Finish?) && a.w in s.workers then Some(s.workers[a.w].claim) else None
  }

  lemma UnheldDoesNothing(s: State, a: Action, t: State)
    requires Next(s, a, t) && Presented(s, a).Some?
    requires !HeldUnder(s, Presented(s, a).value.messageId, Presented(s, a).value.token)
             || s.db.rows[Presented(s, a).value.messageId].lease.None?
             || s.db.rows[Presented(s, a).value.messageId].lease.value <= a.ownedAt
    ensures t.db == s.db
    ensures a.w !in t.workers
  {
  }

  /**
   * A bind or finish presented by a claim that lost its row at any earlier moment, or
   * whose lease has run out when the fence is evaluated, changes nothing in the database.
   */
  lemma StaleClaimsAreFenced(states: seq<State>, actions: seq<Action>, i: nat, j: nat)
    requires Run(states, actions) && i <= j < |actions| && Presented(states[j], actions[j]).Some?
    requires var c := Presented(states[j], actions[j]).value;
             || (c.token in states[i].issued && !HeldUnder(states[i], c.messageId, c.token))
             || (c.messageId in states[j].db.rows && states[j].db.rows[c.messageId].lease.Some?
                 && states[j].db.rows[c.messageId].lease.value <= actions[j].ownedAt)
    ensures states[j + 1].db == states[j].db
  {
    hide Next, Initial, Inv, HeldUnder, RowsEvolve;
    var c := Presented(states[j], actions[j]).value;
    RunStep(states, actions, j);
    if c.token in states[i].issued && !HeldUnder(states[i], c.messageId, c.token) {
      LostForGood(states, actions, i, j, c.messageId, c.token);
    }
    UnheldDoesNothing(states[j], actions[j], states[j + 1]);
  }

  /** The step ends the hold of token k on message id. */
  ghost predicate Closes(s: State, t: State, id: Id, k: Token) {
    k in s.issued && HeldUnder(s, id, k) && !HeldUnder(t, id, k)
  }

  /**
   * An applied finish closes its claim, and so does a bind that passes the fence but blocks or
   * expires the row.
   */
  lemma AppliedStepsClose(s: State, a: Action, t: State)
    requires WorkersOk(s) && Next(s, a, t) && Presented(s, a).Some?
    ensures var c := Presented(s, a).value;
            Owned(s.db.rows, c, a.ownedAt) && (a.Finish? || a.w !in t.workers) ==> Closes(s, t, c.messageId, c.token)
  {
    if a.Finish? {
      FinishHasEffect(s, a, t);
    } else {
      BindHasEffect(s, a, t);
    }
    assert WorkerOk(s, s.workers[a.w]);
    hide Next, WorkersOk;
  }

  /** Of all steps of a run, finishes, binds, sweeps or reclaims, at most one closes a claim. */
  lemma ClosedOnce(states: seq<State>, actions: seq<Action>, i: nat, j: nat, id: Id, k: Token)
    requires Run(states, actions) && i < |actions| && j < |actions|
    requires Closes(states[i], states[i + 1], id, k) && Closes(states[j], states[j + 1], id, k)
    ensures i == j
  {
    hide Next, Initial, HeldUnder;
    HistoryOnlyGrows(states, actions, i, i + 1);
    HistoryOnlyGrows(states, actions, j, j + 1);
    if i < j {
      LostForGood(states, actions, i + 1, j, id, k);
    } else if j < i {
      LostForGood(states, actions, j + 1, i, id, k);
    }
  }

  /** A claim step that handed out message id under token k. */
  ghost predicate Hands(s: State, a: Action, t: State, id: Id, k: Token) {
    a.ClaimOne? && a.token == k && k in t.issued && k !in s.issued && t.issued[k] == id
  }

  lemma HandedRow(s: State, a: Action, t: State, id: Id, k: Token)
    requires Inv(s) && Next(s, a, t) && Hands(s, a, t, id, k)
    ensures id in s.db.rows && HeldUnder(t, id, k) && t.db.rows[id].attempts == s.db.rows[id].attempts + 1
  {
    hide Next, RowOk;
    var claim := ClaimHasEffect(s, a, t);
    assert claim.Some? && claim.value.messageId == id;
    assert HandedOut(id, s.db.rows[id], t.db.rows[id], claim.value, LEASED_TYPES, a.now, a.settings, a.token);
  }

  predicate SameReceipts(s: State, t: State, id: Id) {
    id in s.db.rows && id in t.db.rows && s.db.rows[id].receipts == t.db.rows[id].receipts
  }

  /**
   * Between a claim and the step that closes it, an applied finish for one, nobody else claims
   * the message: the row stays held under the claim's token with the receipts of the claim.
   */
  lemma NoClaimBetween(states: seq<State>, actions: seq<Action>, i: nat, m: nat, j: nat, id: Id, k: Token, other: Token)
    requires Run(states, actions) && i < m < j < |actions|
    requires Hands(states[i], actions[i], states[i + 1], id, k) && Closes(states[j], states[j + 1], id, k)
    ensures !Hands(states[m], actions[m], states[m + 1], id, other)
    ensures HeldUnder(states[m], id, k) && SameReceipts(states[i + 1], states[m], id)
  {
    hide Next, Initial, RowsOk, TableOk, WireOk, ProviderOk, ReceiptsOk, WorkersOk, RowsEvolve, Holds;
    RunStep(states, actions, m);
    HeldThroughout(states, actions, i + 1, i + 1, j, id, k);
    HeldThroughout(states, actions, i + 1, m, j, id, k);
    HeldThroughout(states, actions, i + 1, m + 1, j, id, k);
    if Hands(states[m], actions[m], states[m + 1], id, other) {
      HandedRow(states[m], actions[m], states[m + 1], id, other);
    }
  }
}
