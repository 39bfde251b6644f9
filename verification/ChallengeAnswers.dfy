/**
 * What each challenge call must commit and answer, said in the columns of the tables and not
 * through the predicates the calls are built from.
 */
module ChallengeAnswers {
  import opened Basics
  import opened Challenges

  /** The purposes as they are stored. */
  function Stored(op: Op): string
    requires !op.Elsewhere?
  {
    if op.BeginRegistration? || op.CompleteRegistration? then "registration" else "password_reset"
  }

  /** The address asks for a code it may have: it has no account yet, or an account whose password it may reset. */
  predicate Wanted(db: Db, op: Op)
    requires op.Begins()
  {
    if op.BeginRegistration? then op.email !in db.users else op.eligible
  }

  /** A challenge of this address and purpose is younger than the resend interval. */
  predicate Recent(db: Db, email: Email, purpose: string, policy: Policy, now: Time) {
    exists x | x in db.challenges ::
      && db.challenges[x].email == email && db.challenges[x].purpose == purpose
      && now - db.challenges[x].createdAt < policy.resendSeconds * SECOND
  }

  /** A new row for the slot, one staged delivery for it, nothing else but the slot's old row gone. */
  predicate Issued(db: Db, db': Db, policy: Policy, s: Step)
    requires s.op.Begins() && s.keys.active in s.keys.secrets
  {
    var id, email, purpose := s.op.id, s.op.email, Stored(s.op);
    && db'.intents == db.intents + [id]
    && id in db'.challenges
    && var c := db'.challenges[id];
    && c.email == email && c.purpose == purpose && c.keyVersion == s.keys.active
    && c.attempts == 0 && c.createdAt == s.now && c.expiresAt == s.now + policy.challengeSeconds * SECOND
    && c.consumedAt.None?
    && c.digest == Digest(s.keys.secrets[s.keys.active], id, purpose,
                          s.keys.derive(s.keys.secrets[s.keys.active], id, purpose))
    && (forall x | x in db'.challenges && x != id :: x in db.challenges && db'.challenges[x] == db.challenges[x])
    && (forall x | x in db.challenges && x != id ::
          x in db'.challenges <==> db.challenges[x].email != email || db.challenges[x].purpose != purpose)
  }

  predicate SameAccounts(db: Db, db': Db) {
    db'.users == db.users && db'.passwords == db.passwords && db'.sessions == db.sessions
  }

  /**
   * Beginning a registration or reset stages exactly one delivery, for the new challenge it
   * stores, or none: when the address may not have a code, when its last one is too recent,
   * and when the active key is missing, the one case that raises.
   */
  lemma IssueAnswers(db: Db, policy: Policy, s: Step)
    requires s.op.Begins()
    ensures var db' := Perform(db, policy, s);
            && SameAccounts(db, db')
            && (Raises(db, policy, s)
                == if Wanted(db, s.op) && s.keys.active !in s.keys.secrets then Some(VerificationUnavailable) else None)
            && if Wanted(db, s.op) && s.keys.active in s.keys.secrets
                  && !Recent(db, s.op.email, Stored(s.op), policy, s.now)
               then Issued(db, db', policy, s)
               else db' == db
  {
    var slot := Slot(db, s.op.email, s.op.Purpose());
    assert TooSoon(db, s.op.email, s.op.Purpose(), policy, s.now)
      <==> Recent(db, s.op.email, Stored(s.op), policy, s.now) by {
      assert forall x :: x in slot
                         <==> x in db.challenges && db.challenges[x].email == s.op.email
                              && db.challenges[x].purpose == Stored(s.op);
    }
    hide TooSoon, Recent, Wanted, Eligible;
    assert Eligible(db, s.op) == Wanted(db, s.op) by {
      EligibleIsWanted(db, s.op);
    }
  }

  lemma EligibleIsWanted(db: Db, op: Op)
    requires op.Begins()
    ensures Eligible(db, op) == Wanted(db, op)
  {
  }

  /** The challenge is there for this purpose, unconsumed, in time, with an attempt left. */
  predicate Open(db: Db, id: Id, purpose: string, policy: Policy, now: Time) {
    && id in db.challenges
    && var c := db.challenges[id];
    && c.purpose == purpose && c.consumedAt.None? && now < c.expiresAt && c.attempts < policy.attempts
  }

  /** The code's digest under the secret of the challenge's version is the stored one. */
  predicate RightCode(c: Challenge, id: Id, code: string, keys: Keys)
    requires c.keyVersion in keys.secrets
  {
    c.digest.secret == keys.secrets[c.keyVersion] && c.digest.id == id && c.digest.purpose == c.purpose
    && c.digest.code == code
  }

  /** One attempt more on this challenge, perhaps consumed, and no other change to challenges or deliveries. */
  predicate Counted(db: Db, db': Db, id: Id, consumedAt: Option<Time>)
    requires id in db.challenges
  {
    && db'.intents == db.intents && db'.challenges.Keys == db.challenges.Keys
    && (forall x | x in db.challenges && x != id :: db'.challenges[x] == db.challenges[x])
    && var c, c' := db.challenges[id], db'.challenges[id];
    c' == c.(attempts := c.attempts + 1, consumedAt := consumedAt)
  }

  /** The account side accepts the code: a free address to register, or a full account to reset. */
  predicate Accepts(db: Db, op: Op, email: Email)
    requires op.Completes()
  {
    if op.CompleteRegistration? then email !in db.users
    else
      && email in db.users && db.users[email].active && db.users[email].verified
      && db.users[email].id in db.passwords
  }

  /** What a redeemed challenge does to accounts. */
  ghost predicate Redeemed(db: Db, db': Db, op: Op, email: Email)
    requires op.Completes() && (op.CompleteReset? ==> email in db.users)
  {
    if op.CompleteRegistration? then
      && db'.users == db.users[email := User(op.user, true, true)]
      && db'.passwords == db.passwords[op.user := op.password] && db'.sessions == db.sessions
    else
      var user := db.users[email].id;
      && db'.users == db.users && db'.passwords == db.passwords[user := op.password]
      && (forall x :: x in db'.sessions <==> x in db.sessions && db.sessions[x] != user)
      && (forall x | x in db'.sessions :: db'.sessions[x] == db.sessions[x])
  }

  /**
   * Completing a call: a bad password, an unusable challenge and a missing key change nothing,
   * a wrong code costs one attempt, and a right one succeeds exactly when the account side
   * accepts it, and otherwise leaves no trace.
   */
  lemma ConsumeAnswers(db: Db, policy: Policy, s: Step)
    requires s.op.Completes()
    ensures var id, db', error := s.op.id, Perform(db, policy, s), Raises(db, policy, s);
            if !s.op.acceptable then error == Some(PasswordRejected) && db' == db
            else if !Open(db, id, Stored(s.op), policy, s.now) then error == Some(InvalidChallenge) && db' == db
            else if db.challenges[id].keyVersion !in s.keys.secrets then
              error == Some(VerificationUnavailable) && db' == db
            else if !RightCode(db.challenges[id], id, s.op.code, s.keys) then
              error == Some(InvalidChallenge) && SameAccounts(db, db') && Counted(db, db', id, None)
            else if !Accepts(db, s.op, db.challenges[id].email) then
              && db' == db
              && error == Some(if s.op.CompleteRegistration? then InvalidChallenge else AuthenticationRequired)
            else
              && error.None? && Counted(db, db', id, Some(s.now))
              && Redeemed(db, db', s.op, db.challenges[id].email)
  {
  }

  /** The step begins a registration or reset that issues its challenge. */
  predicate IssuesAt(db: Db, policy: Policy, s: Step) {
    s.op.Begins() && Wanted(db, s.op) && s.keys.active in s.keys.secrets
    && !Recent(db, s.op.email, Stored(s.op), policy, s.now)
  }

  /**
   * Over any run, deliveries are staged in the order of issue, one for each challenge issued
   * and for no other: a step that issues adds its id at the end, any other adds nothing.
   */
  lemma StagedExactlyOnce(dbs: seq<Db>, steps: seq<Step>, policy: Policy, i: nat)
    requires Run(dbs, steps, policy) && i < |steps|
    ensures dbs[i + 1].intents
            == dbs[i].intents + if IssuesAt(dbs[i], policy, steps[i]) then [steps[i].op.id] else []
  {
    assert dbs[i + 1] == Perform(dbs[i], policy, steps[i]);
    hide Run, Perform, Raises, Recent, Wanted, Open, RightCode, Accepts, Redeemed;
    var s := steps[i];
    if s.op.Begins() {
      IssueAnswers(dbs[i], policy, s);
    } else if s.op.Completes() {
      ConsumeAnswers(dbs[i], policy, s);
    } else {
      ElsewhereStagesNothing(dbs[i], policy, s);
    }
  }

  lemma ElsewhereStagesNothing(db: Db, policy: Policy, s: Step)
    requires s.op.Elsewhere?
    ensures Perform(db, policy, s).intents == db.intents && Perform(db, policy, s).challenges == db.challenges
  {
  }

  /** Every challenge of a run that is still stored had its delivery staged, and once. */
  lemma {:induction false} EveryChallengeIsMailed(dbs: seq<Db>, steps: seq<Step>, policy: Policy, i: nat, id: Id)
    requires Run(dbs, steps, policy) && i < |dbs| && id in dbs[i].challenges
    ensures exists k :: 0 <= k < |dbs[i].intents| && dbs[i].intents[k] == id
  {
    hide Perform;
    if i > 0 {
      StagedExactlyOnce(dbs, steps, policy, i - 1);
      var db, s := dbs[i - 1], steps[i - 1];
      if id in db.challenges {
        EveryChallengeIsMailed(dbs, steps, policy, i - 1, id);
        var k :| 0 <= k < |db.intents| && db.intents[k] == id;
        assert dbs[i].intents[k] == id;
      } else {
        NewMeansIssued(db, policy, s, id);
        assert dbs[i].intents[|dbs[i].intents| - 1] == id;
      }
    }
  }

  lemma NewMeansIssued(db: Db, policy: Policy, s: Step, id: Id)
    requires id in Perform(db, policy, s).challenges && id !in db.challenges
    ensures IssuesAt(db, policy, s) && s.op.id == id
  {
    hide Perform, Raises, Recent, Wanted, Open, RightCode, Accepts, Redeemed;
    if s.op.Begins() {
      IssueAnswers(db, policy, s);
    } else if s.op.Completes() {
      ConsumeAnswers(db, policy, s);
    } else {
      ElsewhereStagesNothing(db, policy, s);
    }
  }
}
