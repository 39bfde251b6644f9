/**
 * Email challenges and the transactions that issue and consume them
 * (auth/challenges.py, auth/registration.py, auth/service.py).
 */
module Challenges {
  import opened Basics

  type Id = nat
  type UserId = nat
  // Normalised addresses.
  type Email = string

  datatype Purpose = Registration | PasswordReset {
    function Label(): string {
      match this
      case Registration => "registration"
      case PasswordReset => "password_reset"
    }
  }

  // HMAC-SHA256 of "verify:<id>:<purpose>:<code>", taken to be collision free.
  datatype Digest = Digest(secret: string, id: Id, purpose: string, code: string)

  datatype Challenge = Challenge(
    email: Email, purpose: string, keyVersion: string, digest: Digest, attempts: nat, createdAt: Time, expiresAt: Time,
    consumedAt: Option<Time>)

  datatype User = User(id: UserId, active: bool, verified: bool)

  /** intents lists the challenges a delivery event was staged for; sessions holds the unrevoked ones. */
  datatype Db = Db(
    challenges: map<Id, Challenge>, users: map<Email, User>, passwords: map<UserId, string>,
    sessions: map<nat, UserId>, intents: seq<Id>)

  /** derive is the six-digit code of a challenge under a secret. */
  datatype Keys = Keys(secrets: map<string, string>, active: string, derive: (string, Id, string) -> string)

  datatype Policy = Policy(challengeSeconds: nat, attempts: nat, resendSeconds: nat) {
    predicate Valid() {
      120 <= challengeSeconds <= 900 && 1 <= attempts <= 10 && 30 <= resendSeconds <= 300
    }
  }

  datatype Error = PasswordRejected | InvalidChallenge | VerificationUnavailable | AuthenticationRequired

  // ---- issue -----------------------------------------------------------------------

  predicate On(db: Db, id: Id, email: Email, purpose: string) {
    id in db.challenges && db.challenges[id].email == email && db.challenges[id].purpose == purpose
  }

  function Slot(db: Db, email: Email, purpose: string): set<Id> {
    set id | id in db.challenges && On(db, id, email, purpose)
  }

  predicate TooSoon(db: Db, email: Email, purpose: string, policy: Policy, now: Time) {
    exists id :: id in Slot(db, email, purpose) && now - db.challenges[id].createdAt < policy.resendSeconds * SECOND
  }

  function NewChallenge(id: Id, email: Email, purpose: string, keys: Keys, policy: Policy, now: Time): Challenge
    requires keys.active in keys.secrets
  {
    var secret := keys.secrets[keys.active];
    Challenge(email, purpose, keys.active, Digest(secret, id, purpose, keys.derive(secret, id, purpose)), 0, now,
              now + policy.challengeSeconds * SECOND, None)
  }

  /** The slot's previous challenge gives way to a new one, unless it is too recent. */
  function IssueTx(db: Db, id: Id, email: Email, purpose: string, keys: Keys, policy: Policy, now: Time): Db
    requires keys.active in keys.secrets
  {
    if TooSoon(db, email, purpose, policy, now) then db
    else
      var challenge := NewChallenge(id, email, purpose, keys, policy, now);
      db.(challenges := (db.challenges - Slot(db, email, purpose))[id := challenge],
          intents := db.intents + [id])
  }

  // ---- consume ---------------------------------------------------------------------

  datatype Verdict = Unusable | KeyMissing | Wrong | Good

  predicate Usable(db: Db, id: Id, purpose: string, policy: Policy, now: Time) {
    && id in db.challenges
    && db.challenges[id].purpose == purpose
    && db.challenges[id].consumedAt.None?
    && now < db.challenges[id].expiresAt
    && db.challenges[id].attempts < policy.attempts
  }

  function Judge(db: Db, id: Id, code: string, purpose: string, keys: Keys, policy: Policy, now: Time): Verdict {
    if !Usable(db, id, purpose, policy, now) then Unusable
    else
      var c := db.challenges[id];
      if c.keyVersion !in keys.secrets then KeyMissing
      else if c.digest == Digest(keys.secrets[c.keyVersion], id, c.purpose, code) then Good
      else Wrong
  }

  function Tried(db: Db, id: Id): Db
    requires id in db.challenges
  {
    db.(challenges := db.challenges[id := db.challenges[id].(attempts := db.challenges[id].attempts + 1)])
  }

  function Spent(db: Db, id: Id, now: Time): Db
    requires id in db.challenges
  {
    db.(challenges := db.challenges[id := db.challenges[id].(attempts := db.challenges[id].attempts + 1,
                                                             consumedAt := Some(now))])
  }

  // ---- transactions ----------------------------------------------------------------

  predicate MayReset(db: Db, email: Email) {
    && email in db.users && db.users[email].active && db.users[email].verified
    && db.users[email].id in db.passwords
  }

  function Opened(db: Db, email: Email, user: UserId, password: string): Db {
    db.(users := db.users[email := User(user, true, true)], passwords := db.passwords[user := password])
  }

  function Replaced(db: Db, user: UserId, password: string): Db {
    db.(passwords := db.passwords[user := password],
        sessions := map s | s in db.sessions && db.sessions[s] != user :: db.sessions[s])
  }

  /**
   * id and user are fresh draws; acceptable is the verdict of the password policy.  eligible is
   * what begin_reset read of the account before it took the lock of the address, so it may be
   * out of date.
   */
  datatype Op =
    | BeginRegistration(email: Email, id: Id)
    | BeginReset(email: Email, id: Id, eligible: bool)
    | CompleteRegistration(id: Id, code: string, password: string, acceptable: bool, user: UserId)
    | CompleteReset(id: Id, code: string, password: string, acceptable: bool)
    | Elsewhere(users: map<Email, User>, passwords: map<UserId, string>, sessions: map<nat, UserId>)
  {
    predicate Begins() { BeginRegistration? || BeginReset? }

    predicate Completes() { CompleteRegistration? || CompleteReset? }

    function Purpose(): string
      requires !Elsewhere?
    {
      if BeginRegistration? || CompleteRegistration? then Registration.Label() else PasswordReset.Label()
    }
  }

  datatype Step = Step(op: Op, keys: Keys, now: Time)

  predicate Eligible(db: Db, op: Op)
    requires op.Begins()
  {
    if op.BeginRegistration? then op.email !in db.users else op.eligible
  }

  function VerdictOf(db: Db, policy: Policy, s: Step): Verdict
    requires s.op.Completes()
  {
    Judge(db, s.op.id, s.op.code, s.op.Purpose(), s.keys, policy, s.now)
  }

  /** Whether the account side accepts a good code. */
  predicate Admitted(db: Db, op: Op)
    requires op.Completes() && op.id in db.challenges
  {
    var email := db.challenges[op.id].email;
    if op.CompleteRegistration? then email !in db.users else MayReset(db, email)
  }

  /** The error a call raises, if any. */
  function Raises(db: Db, policy: Policy, s: Step): Option<Error> {
    if s.op.Elsewhere? then None
    else if s.op.Begins() then
      if Eligible(db, s.op) && s.keys.active !in s.keys.secrets then Some(VerificationUnavailable) else None
    else if !s.op.acceptable then Some(PasswordRejected)
    else match VerdictOf(db, policy, s)
      case Unusable => Some(InvalidChallenge)
      case Wrong => Some(InvalidChallenge)
      case KeyMissing => Some(VerificationUnavailable)
      case Good =>
        if Admitted(db, s.op) then None
        else if s.op.CompleteRegistration? then Some(InvalidChallenge)
        else Some(AuthenticationRequired)
  }

  /** The committed database after one call. */
  function Perform(db: Db, policy: Policy, s: Step): Db {
    match s.op
    case Elsewhere(users, passwords, sessions) => db.(users := users, passwords := passwords, sessions := sessions)
    case BeginRegistration(email, id) =>
      if Eligible(db, s.op) && s.keys.active in s.keys.secrets
      then IssueTx(db, id, email, s.op.Purpose(), s.keys, policy, s.now) else db
    case BeginReset(email, id, _) =>
      if Eligible(db, s.op) && s.keys.active in s.keys.secrets
      then IssueTx(db, id, email, s.op.Purpose(), s.keys, policy, s.now) else db
    case CompleteRegistration(id, _, password, acceptable, user) =>
      if !acceptable then db
      else
        var verdict := VerdictOf(db, policy, s);
        if verdict.Wrong? then Tried(db, id)
        else if verdict.Good? && Admitted(db, s.op) then
          Opened(Spent(db, id, s.now), db.challenges[id].email, user, password)
        else db
    case CompleteReset(id, _, password, acceptable) =>
      if !acceptable then db
      else
        var verdict := VerdictOf(db, policy, s);
        if verdict.Wrong? then Tried(db, id)
        else if verdict.Good? && Admitted(db, s.op) then
          Replaced(Spent(db, id, s.now), db.users[db.challenges[id].email].id, password)
        else db
  }

  // ---- invariant of the table ------------------------------------------------------

  predicate RowOk(c: Challenge, policy: Policy) {
    c.attempts <= policy.attempts && (c.consumedAt.Some? ==> c.attempts >= 1)
  }

  ghost predicate DbOk(db: Db, policy: Policy) {
    && (forall id | id in db.challenges :: RowOk(db.challenges[id], policy))
    && (forall x, y | x in db.challenges && y in db.challenges && x != y ::
          db.challenges[x].email == db.challenges[y].email ==> db.challenges[x].purpose != db.challenges[y].purpose)
  }

  /** Whether the call issues a challenge for its slot. */
  predicate Issues(db: Db, policy: Policy, s: Step) {
    && s.op.Begins() && Eligible(db, s.op) && s.keys.active in s.keys.secrets
    && !TooSoon(db, s.op.email, s.op.Purpose(), policy, s.now)
  }

  /** Whether the call compares a code against challenge id and finds it wrong. */
  predicate MissesOn(db: Db, policy: Policy, s: Step, id: Id) {
    s.op.Completes() && s.op.id == id && s.op.acceptable && VerdictOf(db, policy, s).Wrong?
  }

  /** Whether the call succeeds by consuming challenge id. */
  predicate Redeems(db: Db, policy: Policy, s: Step, id: Id) {
    s.op.Completes() && s.op.id == id && Raises(db, policy, s).None?
  }

  /** The part of a row that is fixed when it is issued. */
  function Core(c: Challenge): Challenge {
    c.(attempts := 0, consumedAt := None)
  }

  /** What a call may do to one challenge. */
  lemma RowMoves(db: Db, policy: Policy, s: Step, id: Id)
    requires id in db.challenges
    requires s.op.Begins() ==> s.op.id !in db.challenges
    ensures var db' := Perform(db, policy, s);
            if Issues(db, policy, s) && On(db, id, s.op.email, s.op.Purpose()) then id !in db'.challenges
            else if MissesOn(db, policy, s, id) then
              id in db'.challenges
              && db'.challenges[id] == db.challenges[id].(attempts := db.challenges[id].attempts + 1)
              && db.challenges[id].attempts < policy.attempts && db.challenges[id].consumedAt.None?
            else if Redeems(db, policy, s, id) then
              id in db'.challenges
              && db'.challenges[id] == db.challenges[id].(attempts := db.challenges[id].attempts + 1,
                                                          consumedAt := Some(s.now))
              && db.challenges[id].attempts < policy.attempts && db.challenges[id].consumedAt.None?
            else id in db'.challenges && db'.challenges[id] == db.challenges[id]
  {
    if s.op.Begins() {
      assert On(db, id, s.op.email, s.op.Purpose()) <==> id in Slot(db, s.op.email, s.op.Purpose());
    }
    hide TooSoon, NewChallenge, On, Slot;
  }

  /** The only row a call adds is the challenge it issues. */
  lemma RowsAppear(db: Db, policy: Policy, s: Step, id: Id)
    requires id in Perform(db, policy, s).challenges && id !in db.challenges
    ensures Issues(db, policy, s) && id == s.op.id
    ensures Perform(db, policy, s).challenges[id]
            == NewChallenge(id, s.op.email, s.op.Purpose(), s.keys, policy, s.now)
  {
    hide TooSoon, NewChallenge;
  }

  lemma DbOkStep(db: Db, policy: Policy, s: Step)
    requires DbOk(db, policy)
    requires s.op.Begins() ==> s.op.id !in db.challenges
    ensures DbOk(Perform(db, policy, s), policy)
  {
    var db' := Perform(db, policy, s);
    hide Perform, Judge, TooSoon, MissesOn, Redeems;
    forall id | id in db'.challenges
      ensures RowOk(db'.challenges[id], policy)
      ensures id in db.challenges ==> Core(db'.challenges[id]) == Core(db.challenges[id])
      ensures id in db.challenges && Issues(db, policy, s) ==> !On(db, id, s.op.email, s.op.Purpose())
      ensures id !in db.challenges ==> Issues(db, policy, s) && On(db', id, s.op.email, s.op.Purpose()) && id == s.op.id
    {
      if id in db.challenges {
        RowMoves(db, policy, s, id);
      } else {
        RowsAppear(db, policy, s, id);
      }
    }
    hide Issues, RowOk;
    forall x, y | x in db'.challenges && y in db'.challenges && x != y
      ensures db'.challenges[x].email == db'.challenges[y].email ==>
                db'.challenges[x].purpose != db'.challenges[y].purpose
    {
      if x in db.challenges && y in db.challenges {
        assert Core(db'.challenges[x]) == Core(db.challenges[x]);
        assert Core(db'.challenges[y]) == Core(db.challenges[y]);
      }
    }
  }

  // ---- one call --------------------------------------------------------------------

  /**
   * A call that raises commits at most one counted miss.  In particular a good code that the
   * account side refuses is rolled back whole: the challenge stays unconsumed, the attempt is
   * not counted and the same code would be judged good again.
   */
  lemma FailureCommitsOnlyMisses(db: Db, policy: Policy, s: Step)
    requires Raises(db, policy, s).Some?
    ensures Perform(db, policy, s)
            == if s.op.Completes() && MissesOn(db, policy, s, s.op.id) then Tried(db, s.op.id) else db
    ensures s.op.Completes() && s.op.acceptable && VerdictOf(db, policy, s).Good?
            ==> !Admitted(db, s.op) && VerdictOf(Perform(db, policy, s), policy, s).Good?
  {
    hide TooSoon, NewChallenge;
  }

  /** Accounts, passwords and sessions change only by redeeming a challenge. */
  lemma OnlyRedemptionsTouchAccounts(db: Db, policy: Policy, s: Step)
    requires !s.op.Elsewhere? && !(s.op.Completes() && Redeems(db, policy, s, s.op.id))
    ensures var db' := Perform(db, policy, s);
            db'.users == db.users && db'.passwords == db.passwords && db'.sessions == db.sessions
  {
    hide TooSoon, NewChallenge, Slot, On, Admitted, Judge;
  }

  /** A redeemed registration opens the one account of its address. */
  lemma RegistrationOpensAccount(db: Db, policy: Policy, s: Step)
    requires s.op.CompleteRegistration? && Redeems(db, policy, s, s.op.id)
    ensures s.op.id in db.challenges
    ensures var owner, db' := db.challenges[s.op.id].email, Perform(db, policy, s);
            && owner !in db.users && db'.users == db.users[owner := User(s.op.user, true, true)]
            && db'.passwords == db.passwords[s.op.user := s.op.password] && db'.sessions == db.sessions
  {
  }

  /** A redeemed reset replaces the password of its address and ends every session of that user alone. */
  lemma ResetReplacesPassword(db: Db, policy: Policy, s: Step)
    requires s.op.CompleteReset? && Redeems(db, policy, s, s.op.id)
    ensures s.op.id in db.challenges && db.challenges[s.op.id].email in db.users
    ensures var user, db' := db.users[db.challenges[s.op.id].email].id, Perform(db, policy, s);
            && db'.users == db.users && db'.passwords == db.passwords[user := s.op.password]
            && forall x :: x in db'.sessions <==> x in db.sessions && db.sessions[x] != user
  {
  }

  // ---- runs ------------------------------------------------------------------------

  /** Challenge ids are fresh draws and the clock never runs backwards. */
  ghost predicate Run(dbs: seq<Db>, steps: seq<Step>, policy: Policy) {
    && policy.Valid()
    && |dbs| == |steps| + 1
    && dbs[0].challenges == map[]
    && (forall i | 0 <= i < |steps| :: dbs[i + 1] == Perform(dbs[i], policy, steps[i]))
    && (forall i, j | 0 <= j <= i < |steps| && steps[i].op.Begins() :: steps[i].op.id !in dbs[j].challenges)
    && (forall i, j | 0 <= i <= j < |steps| :: steps[i].now <= steps[j].now)
  }

  lemma {:induction false} RunDbOk(dbs: seq<Db>, steps: seq<Step>, policy: Policy, n: nat)
    requires Run(dbs, steps, policy) && n < |dbs|
    ensures DbOk(dbs[n], policy)
  {
    hide Perform;
    if n > 0 {
      RunDbOk(dbs, steps, policy, n - 1);
      hide DbOk;
      DbOkStep(dbs[n - 1], policy, steps[n - 1]);
    }
  }

  /** A challenge that is gone never returns, and a consumed one never changes. */
  lemma {:induction false} SpentStays(dbs: seq<Db>, steps: seq<Step>, policy: Policy, h: nat, i: nat, j: nat, id: Id)
    requires Run(dbs, steps, policy) && h <= i <= j < |dbs| && id in dbs[h].challenges
    requires id !in dbs[i].challenges || dbs[i].challenges[id].consumedAt.Some?
    ensures id in dbs[j].challenges ==> id in dbs[i].challenges && dbs[j].challenges[id] == dbs[i].challenges[id]
  {
    hide Perform;
    if i < j {
      SpentStays(dbs, steps, policy, h, i, j - 1, id);
      var db, s := dbs[j - 1], steps[j - 1];
      hide Issues, MissesOn, Redeems;
      if id in db.challenges {
        RowMoves(db, policy, s, id);
      } else if id in dbs[j].challenges {
        RowsAppear(db, policy, s, id);
      }
    }
  }

  /**
   * Each challenge is redeemed at most once: after the call that redeemed it, every later call
   * that presents it, with any code and under any keys, is refused and changes nothing.
   */
  lemma RedeemedOnce(dbs: seq<Db>, steps: seq<Step>, policy: Policy, i: nat, j: nat, id: Id)
    requires Run(dbs, steps, policy) && i < j < |steps|
    requires Redeems(dbs[i], policy, steps[i], id)
    requires steps[j].op.Completes() && steps[j].op.id == id
    ensures !Redeems(dbs[j], policy, steps[j], id)
    ensures steps[j].op.acceptable ==> Raises(dbs[j], policy, steps[j]) == Some(InvalidChallenge)
    ensures dbs[j + 1] == dbs[j]
  {
    assert id in dbs[i].challenges && !Issues(dbs[i], policy, steps[i]) && !MissesOn(dbs[i], policy, steps[i], id);
    RowMoves(dbs[i], policy, steps[i], id);
    SpentStays(dbs, steps, policy, i, i + 1, j, id);
    hide Issues, Redeems, MissesOn, Opened, Replaced, IssueTx;
    assert !Usable(dbs[j], id, steps[j].op.Purpose(), policy, steps[j].now);
  }

  /** A committed consumption is exactly a call that returned normally. */
  lemma ConsumptionIsRedemption(db: Db, policy: Policy, s: Step, id: Id)
    requires id in db.challenges && db.challenges[id].consumedAt.None?
    requires s.op.Begins() ==> s.op.id !in db.challenges
    ensures var db' := Perform(db, policy, s);
            id in db'.challenges && db'.challenges[id].consumedAt.Some? <==> Redeems(db, policy, s, id)
  {
    RowMoves(db, policy, s, id);
    hide Perform, TooSoon, MissesOn;
  }

  /** The call consumes a challenge that nobody had consumed. */
  predicate Consumes(db: Db, db': Db, id: Id) {
    && id in db.challenges && db.challenges[id].consumedAt.None?
    && id in db'.challenges && db'.challenges[id].consumedAt.Some?
  }

  /** Each challenge is consumed by at most one committed call of a run, and that call returned normally. */
  lemma ConsumedOnce(dbs: seq<Db>, steps: seq<Step>, policy: Policy, i: nat, j: nat, id: Id)
    requires Run(dbs, steps, policy) && i < |steps| && j < |steps|
    requires Consumes(dbs[i], dbs[i + 1], id) && Consumes(dbs[j], dbs[j + 1], id)
    ensures i == j && Redeems(dbs[i], policy, steps[i], id)
  {
    hide Perform, Redeems;
    ConsumptionIsRedemption(dbs[i], policy, steps[i], id);
    if i < j {
      SpentStays(dbs, steps, policy, i, i + 1, j, id);
    } else if j < i {
      SpentStays(dbs, steps, policy, j, j + 1, i, id);
    }
  }

  /** What was issued is what later calls find. */
  lemma {:induction false} CoreStays(dbs: seq<Db>, steps: seq<Step>, policy: Policy, i: nat, j: nat, id: Id)
    requires Run(dbs, steps, policy) && i <= j < |dbs| && id in dbs[i].challenges && id in dbs[j].challenges
    ensures Core(dbs[j].challenges[id]) == Core(dbs[i].challenges[id])
  {
    hide Perform, MissesOn, Redeems;
    if i < j {
      var db, s := dbs[j - 1], steps[j - 1];
      if id in db.challenges {
        CoreStays(dbs, steps, policy, i, j - 1, id);
        RowMoves(db, policy, s, id);
      } else {
        RowsAppear(db, policy, s, id);
      }
    }
  }

  /** The call redeemed a challenge of the user's address and set this password. */
  predicate SetsPassword(db: Db, policy: Policy, s: Step, db': Db, user: UserId, password: string) {
    && s.op.Completes() && Redeems(db, policy, s, s.op.id) && s.op.password == password
    && s.op.id in db.challenges
    && var email := db.challenges[s.op.id].email;
    && email in db'.users && db'.users[email].id == user
    && (s.op.CompleteReset? ==> forall x | x in db'.sessions :: db'.sessions[x] != user)
  }

  lemma PasswordStep(db: Db, policy: Policy, s: Step, user: UserId)
    requires !s.op.Elsewhere? && user in Perform(db, policy, s).passwords
    ensures var db' := Perform(db, policy, s);
            || (user in db.passwords && db'.passwords[user] == db.passwords[user])
            || SetsPassword(db, policy, s, db', user, db'.passwords[user])
  {
    if s.op.Completes() && Redeems(db, policy, s, s.op.id) {
      if s.op.CompleteRegistration? {
        RegistrationOpensAccount(db, policy, s);
      } else {
        ResetReplacesPassword(db, policy, s);
      }
    } else {
      OnlyRedemptionsTouchAccounts(db, policy, s);
    }
    hide Perform, Redeems;
  }

  /**
   * Over any stretch of a run without account changes from elsewhere, a password at its end is
   * the one at its start or was set by redeeming a challenge of that user's address, and a
   * reset among them ended every session of the user.
   */
  lemma {:induction false} PasswordsTraceToRedemptions(dbs: seq<Db>, steps: seq<Step>, policy: Policy, i: nat, j: nat,
                                                       user: UserId)
    requires Run(dbs, steps, policy) && i <= j < |dbs| && user in dbs[j].passwords
    requires forall k | i <= k < j :: !steps[k].op.Elsewhere?
    ensures || (user in dbs[i].passwords && dbs[j].passwords[user] == dbs[i].passwords[user])
            || exists k ::
                 i <= k < j && SetsPassword(dbs[k], policy, steps[k], dbs[k + 1], user, dbs[j].passwords[user])
  {
    hide Perform, SetsPassword;
    if i < j {
      PasswordStep(dbs[j - 1], policy, steps[j - 1], user);
      if user in dbs[j - 1].passwords && dbs[j].passwords[user] == dbs[j - 1].passwords[user] {
        PasswordsTraceToRedemptions(dbs, steps, policy, i, j - 1, user);
      }
    }
  }

  // ---- how many codes can be guessed ----------------------------------------------

  /** The least time between two challenges of one slot. */
  function Spacing(policy: Policy): Time {
    policy.resendSeconds * SECOND
  }

  predicate WrongOn(db: Db, policy: Policy, s: Step, email: Email, purpose: string) {
    s.op.Completes() && MissesOn(db, policy, s, s.op.id) && On(db, s.op.id, email, purpose)
  }

  predicate IssuesOn(db: Db, policy: Policy, s: Step, email: Email, purpose: string) {
    Issues(db, policy, s) && s.op.email == email && s.op.Purpose() == purpose
  }

  /** The wrong codes compared for a slot by the first n calls, at instants from..to. */
  function WrongCodes(dbs: seq<Db>, steps: seq<Step>, policy: Policy, email: Email, purpose: string, from: Time,
                      to: Time, n: nat): nat
    requires n <= |steps| < |dbs|
  {
    if n == 0 then 0
    else
      WrongCodes(dbs, steps, policy, email, purpose, from, to, n - 1)
      + if from <= steps[n - 1].now <= to && WrongOn(dbs[n - 1], policy, steps[n - 1], email, purpose) then 1 else 0
  }

  function Issued(dbs: seq<Db>, steps: seq<Step>, policy: Policy, email: Email, purpose: string, from: Time, to: Time,
                  n: nat): nat
    requires n <= |steps| < |dbs|
  {
    if n == 0 then 0
    else
      Issued(dbs, steps, policy, email, purpose, from, to, n - 1)
      + if from <= steps[n - 1].now <= to && IssuesOn(dbs[n - 1], policy, steps[n - 1], email, purpose) then 1 else 0
  }

  /** The challenge that holds a slot. */
  ghost function Holder(db: Db, email: Email, purpose: string): Option<Challenge> {
    if exists id :: On(db, id, email, purpose) then
      var id :| On(db, id, email, purpose);
      Some(db.challenges[id])
    else None
  }

  lemma HolderIs(db: Db, policy: Policy, id: Id, email: Email, purpose: string)
    requires DbOk(db, policy) && On(db, id, email, purpose)
    ensures Holder(db, email, purpose) == Some(db.challenges[id]) && RowOk(db.challenges[id], policy)
  {
    forall x | On(db, x, email, purpose) ensures x == id {
      assert db.challenges[x].email == db.challenges[id].email;
    }
  }

  /** How one call moves a slot. */
  lemma SlotMoves(db: Db, policy: Policy, s: Step, email: Email, purpose: string)
    requires DbOk(db, policy)
    requires s.op.Begins() ==> s.op.id !in db.challenges
    ensures var h, h' := Holder(db, email, purpose), Holder(Perform(db, policy, s), email, purpose);
            && (h.Some? ==> h'.Some?)
            && (h'.Some? ==> h'.value.attempts <= policy.attempts)
            && if IssuesOn(db, policy, s, email, purpose) then
                 && h'.Some? && h'.value.attempts == 0 && h'.value.createdAt == s.now
                 && (h.Some? ==> h.value.createdAt + Spacing(policy) <= s.now)
               else if WrongOn(db, policy, s, email, purpose) then
                 h.Some? && h'.value.attempts == h.value.attempts + 1 && h'.value.createdAt == h.value.createdAt
               else if h.Some? then
                 h.value.attempts <= h'.value.attempts && h'.value.createdAt == h.value.createdAt
               else h'.None?
  {
    var db' := Perform(db, policy, s);
    DbOkStep(db, policy, s);
    if IssuesOn(db, policy, s, email, purpose) {
      IssueMovesSlot(db, policy, s);
    } else if id :| On(db, id, email, purpose) {
      HolderIs(db, policy, id, email, purpose);
      RowMoves(db, policy, s, id);
      hide Perform, DbOk, Holder, Judge, TooSoon;
      HolderIs(db', policy, id, email, purpose);
      if WrongOn(db, policy, s, email, purpose) {
        HolderIs(db, policy, s.op.id, email, purpose);
        RowMoves(db, policy, s, s.op.id);
        HolderIs(db', policy, s.op.id, email, purpose);
      }
    } else {
      FreeSlotStaysFree(db, policy, s, email, purpose);
      hide Perform, DbOk;
    }
  }

  lemma FreeSlotStaysFree(db: Db, policy: Policy, s: Step, email: Email, purpose: string)
    requires s.op.Begins() ==> s.op.id !in db.challenges
    requires !IssuesOn(db, policy, s, email, purpose) && forall id :: !On(db, id, email, purpose)
    ensures forall id :: !On(Perform(db, policy, s), id, email, purpose)
  {
    var db' := Perform(db, policy, s);
    hide Perform, TooSoon, MissesOn, Redeems;
    forall id ensures !On(db', id, email, purpose) {
      assert !On(db, id, email, purpose);
      if id in db.challenges {
        RowMoves(db, policy, s, id);
      } else if id in db'.challenges {
        RowsAppear(db, policy, s, id);
      }
    }
  }

  lemma IssueMovesSlot(db: Db, policy: Policy, s: Step)
    requires DbOk(db, policy) && Issues(db, policy, s) && s.op.id !in db.challenges
    ensures var email, purpose := s.op.email, s.op.Purpose();
            var h, h' := Holder(db, email, purpose), Holder(Perform(db, policy, s), email, purpose);
            && h'.Some? && h'.value.attempts == 0 && h'.value.createdAt == s.now
            && (h.Some? ==> h.value.createdAt + Spacing(policy) <= s.now)
  {
    var db' := Perform(db, policy, s);
    DbOkStep(db, policy, s);
    assert On(db', s.op.id, s.op.email, s.op.Purpose());
    HolderIs(db', policy, s.op.id, s.op.email, s.op.Purpose());
    if h :| On(db, h, s.op.email, s.op.Purpose()) {
      HolderIs(db, policy, h, s.op.email, s.op.Purpose());
      assert h in Slot(db, s.op.email, s.op.Purpose());
    }
  }

  lemma AtMostQuotient(k: int, r: int, t: int)
    requires r > 0 && k * r <= t
    ensures k <= t / r
  {
    var q := t / r;
    assert t < (q + 1) * r;
  }

  ghost predicate Tally(holder: Option<Challenge>, policy: Policy, from: Time, last: Time, wrong: nat, issued: nat) {
    && wrong <= policy.attempts * issued + (if holder.Some? then holder.value.attempts else 0)
    && (holder.Some? ==> holder.value.createdAt <= last && holder.value.attempts <= policy.attempts)
    && (issued >= 1 ==>
          holder.Some? && from + (issued - 1) * Spacing(policy) <= holder.value.createdAt)
  }

  lemma TallyStep(db: Db, policy: Policy, s: Step, email: Email, purpose: string, from: Time, last: Time, wrong: nat,
                  issued: nat)
    requires policy.Valid() && DbOk(db, policy) && last <= s.now
    requires s.op.Begins() ==> s.op.id !in db.challenges
    requires Tally(Holder(db, email, purpose), policy, from, last, wrong, issued)
    requires s.now < from ==> wrong == issued == 0
    ensures var w := if from <= s.now && WrongOn(db, policy, s, email, purpose) then 1 else 0;
            var k := if from <= s.now && IssuesOn(db, policy, s, email, purpose) then 1 else 0;
            Tally(Holder(Perform(db, policy, s), email, purpose), policy, from, s.now, wrong + w, issued + k)
  {
    SlotMoves(db, policy, s, email, purpose);
    IssueIsNoMiss(db, policy, s, email, purpose);
    var h, h' := Holder(db, email, purpose), Holder(Perform(db, policy, s), email, purpose);
    hide Perform, Holder, DbOk, WrongOn, IssuesOn, Tally;
    if IssuesOn(db, policy, s, email, purpose) {
      TallyIssue(h, h', policy, from, last, s.now, wrong, issued);
    } else {
      TallyMiss(h, h', policy, from, last, s.now, wrong, issued, WrongOn(db, policy, s, email, purpose));
    }
  }

  lemma TallyIssue(h: Option<Challenge>, h': Option<Challenge>, policy: Policy, from: Time, last: Time, now: Time,
                   wrong: nat, issued: nat)
    requires policy.Valid() && last <= now && Tally(h, policy, from, last, wrong, issued)
    requires now < from ==> wrong == issued == 0
    requires h'.Some? && h'.value.attempts == 0 && h'.value.createdAt == now
    requires h.Some? ==> h.value.createdAt + Spacing(policy) <= now
    ensures Tally(h', policy, from, now, wrong, issued + if from <= now then 1 else 0)
  {
    var r, a := Spacing(policy), policy.attempts;
    assert a * (issued + 1) == a * issued + a;
    assert issued * r == (issued - 1) * r + r;
  }

  lemma TallyMiss(h: Option<Challenge>, h': Option<Challenge>, policy: Policy, from: Time, last: Time, now: Time,
                  wrong: nat, issued: nat, miss: bool)
    requires last <= now && Tally(h, policy, from, last, wrong, issued)
    requires now < from ==> wrong == issued == 0
    requires h'.Some? ==> h'.value.attempts <= policy.attempts
    requires miss ==> h.Some?
    requires h.Some? ==> h'.Some? && h'.value.attempts >= h.value.attempts + (if miss then 1 else 0)
    requires h.Some? ==> h'.Some? && h'.value.createdAt == h.value.createdAt
    requires h.None? ==> h'.None?
    ensures Tally(h', policy, from, now, wrong + (if from <= now && miss then 1 else 0), issued)
  {
  }

  lemma IssueIsNoMiss(db: Db, policy: Policy, s: Step, email: Email, purpose: string)
    ensures IssuesOn(db, policy, s, email, purpose) ==> !WrongOn(db, policy, s, email, purpose)
  {
  }

  lemma TallyBounds(holder: Option<Challenge>, policy: Policy, from: Time, last: Time, to: Time,
                    wrong: nat, issued: nat)
    requires Spacing(policy) > 0 && Tally(holder, policy, from, last, wrong, issued) && from <= to && last <= to
    ensures wrong <= policy.attempts * (issued + 1)
    ensures issued <= (to - from) / Spacing(policy) + 1
  {
    hide Spacing;
    AttemptsBound(policy.attempts, wrong, issued, if holder.Some? then holder.value.attempts else 0);
    if issued >= 1 {
      AtMostQuotient(issued - 1, Spacing(policy), to - from);
    }
  }

  lemma AttemptsBound(a: nat, wrong: nat, issued: nat, current: nat)
    requires wrong <= a * issued + current && current <= a
    ensures wrong <= a * (issued + 1)
  {
    assert a * (issued + 1) == a * issued + a;
  }

  lemma {:induction false} RunTally(dbs: seq<Db>, steps: seq<Step>, policy: Policy, email: Email, purpose: string,
                                    from: Time, to: Time, n: nat)
    requires Run(dbs, steps, policy) && n <= |steps| && from <= to
    ensures var wrong := WrongCodes(dbs, steps, policy, email, purpose, from, to, n);
            var issued := Issued(dbs, steps, policy, email, purpose, from, to, n);
            && wrong <= policy.attempts * (issued + 1)
            && issued <= (to - from) / Spacing(policy) + 1
            && (n > 0 && steps[n - 1].now < from ==> wrong == issued == 0)
            && (n == 0 || steps[n - 1].now <= to ==>
                  Tally(Holder(dbs[n], email, purpose), policy, from, if n == 0 then from else steps[n - 1].now, wrong,
                        issued))
  {
    hide Perform, Holder, DbOk, WrongOn, IssuesOn, Tally;
    if n == 0 {
      FirstTally(dbs[0], policy, email, purpose, from, from);
      TallyBounds(Holder(dbs[0], email, purpose), policy, from, from, to, 0, 0);
    } else {
      RunTally(dbs, steps, policy, email, purpose, from, to, n - 1);
      var s := steps[n - 1];
      assert n >= 2 ==> steps[n - 2].now <= s.now;
      if s.now <= to {
        RunDbOk(dbs, steps, policy, n - 1);
        var last := if n == 1 then Min(from, s.now) else steps[n - 2].now;
        if n == 1 {
          FirstTally(dbs[0], policy, email, purpose, from, last);
        }
        TallyStep(dbs[n - 1], policy, s, email, purpose, from, last,
                  WrongCodes(dbs, steps, policy, email, purpose, from, to, n - 1),
                  Issued(dbs, steps, policy, email, purpose, from, to, n - 1));
        TallyBounds(Holder(dbs[n], email, purpose), policy, from, s.now, to,
                    WrongCodes(dbs, steps, policy, email, purpose, from, to, n),
                    Issued(dbs, steps, policy, email, purpose, from, to, n));
      }
    }
  }

  lemma FirstTally(db: Db, policy: Policy, email: Email, purpose: string, from: Time, last: Time)
    requires db.challenges == map[]
    ensures Tally(Holder(db, email, purpose), policy, from, last, 0, 0)
  {
  }

  lemma ScaleUp(a: nat, x: int, y: int)
    requires x <= y
    ensures a * x <= a * y
  {
  }

  /**
   * In any run, at most attempts * (T / resend + 2) wrong codes are compared for one address
   * and purpose in an interval of length T, whatever is issued, expired or consumed meanwhile.
   */
  lemma WrongCodesAreBounded(dbs: seq<Db>, steps: seq<Step>, policy: Policy, email: Email, purpose: string, from: Time,
                             to: Time)
    requires Run(dbs, steps, policy) && from <= to
    ensures WrongCodes(dbs, steps, policy, email, purpose, from, to, |steps|)
            <= policy.attempts * ((to - from) / Spacing(policy) + 2)
  {
    hide Perform, IssuesOn, WrongOn, Tally, Holder, Issued, WrongCodes;
    RunTally(dbs, steps, policy, email, purpose, from, to, |steps|);
    ScaleUp(policy.attempts, Issued(dbs, steps, policy, email, purpose, from, to, |steps|) + 1,
            (to - from) / Spacing(policy) + 2);
  }

  /** Under any policy the settings allow, ten codes for each half minute, and twenty more, bound the guesses. */
  lemma GuessesAreBounded(dbs: seq<Db>, steps: seq<Step>, policy: Policy, email: Email, purpose: string, from: Time,
                          to: Time)
    requires Run(dbs, steps, policy) && from <= to
    ensures WrongCodes(dbs, steps, policy, email, purpose, from, to, |steps|) <= 10 * ((to - from) / (30 * SECOND) + 2)
  {
    WrongCodesAreBounded(dbs, steps, policy, email, purpose, from, to);
    assert 1 <= policy.attempts <= 10 && Spacing(policy) >= 30 * SECOND;
    hide *;
    WiderIsFewer(to - from, 30 * SECOND, Spacing(policy));
    var few, many := (to - from) / Spacing(policy) + 2, (to - from) / (30 * SECOND) + 2;
    ScaleUp(policy.attempts, few, many);
    MoreIsMore(policy.attempts, 10, many);
  }

  lemma WiderIsFewer(t: nat, small: nat, large: nat)
    requires 0 < small <= large
    ensures 0 <= t / large <= t / small
  {
    var q := t / large;
    ScaleUp(q, small, large);
    assert q * large <= t < (t / small + 1) * small;
    Cancelled(q, t / small + 1, small);
  }

  lemma Cancelled(a: int, b: int, x: nat)
    requires a * x < b * x
    ensures a < b
  {
  }

  lemma MoreIsMore(a: nat, b: nat, x: nat)
    requires a <= b
    ensures a * x <= b * x
  {
  }

  // ---- the services ----------------------------------------------------------------

  /**
   * One session and the database behind it.  Every call opens on the committed state, stages
   * its writes, and loses what it has not committed when it returns or raises.
   */
  class UnitOfWork {
    const policy: Policy
    var committed: Db
    var staged: Db

    constructor (db: Db, policy: Policy)
      requires DbOk(db, policy)
      ensures Fresh() && committed == db && this.policy == policy
    {
      committed, staged, this.policy := db, db, policy;
    }

    ghost predicate Fresh()
      reads this
    {
      staged == committed && DbOk(committed, policy)
    }

    method Commit()
      modifies this`committed
      ensures committed == staged
    {
      committed := staged;
    }

    method Rollback()
      modifies this`staged
      ensures staged == committed
    {
      staged := committed;
    }

    /** id and decoy are uuid4() draws. */
    method IssueChallenge(email: Email, purpose: Purpose, keys: Keys, now: Time, id: Id, decoy: Id)
      returns (r: Result<Id, Error>)
      requires DbOk(staged, policy)
      modifies this`staged
      ensures r.Err? <==> keys.active !in keys.secrets
      ensures r.Err? ==> r.error == VerificationUnavailable && staged == old(staged)
      ensures r.Ok? ==> staged == IssueTx(old(staged), id, email, purpose.Label(), keys, policy, now)
      ensures r.Ok? ==> r.value == if TooSoon(old(staged), email, purpose.Label(), policy, now) then decoy else id
    {
      if keys.active !in keys.secrets {
        return Err(VerificationUnavailable);
      }
      var slot := Slot(staged, email, purpose.Label());
      if slot != {} {
        var previous :| previous in slot;
        assert slot == {previous} by {
          SlotIsOne(staged, policy, email, purpose.Label(), previous);
        }
        if now - staged.challenges[previous].createdAt < policy.resendSeconds * SECOND {
          return Ok(decoy);
        }
        staged := staged.(challenges := staged.challenges - {previous});
      }
      var secret := keys.secrets[keys.active];
      var code := keys.derive(secret, id, purpose.Label());
      var row := Challenge(email, purpose.Label(), keys.active, Digest(secret, id, purpose.Label(), code), 0, now,
                           now + policy.challengeSeconds * SECOND, None);
      staged := staged.(challenges := staged.challenges[id := row]);
      staged := staged.(intents := staged.intents + [id]);
      assert old(staged).challenges - {} == old(staged).challenges;
      return Ok(id);
    }

    method ConsumeChallenge(id: Id, code: string, purpose: Purpose, keys: Keys, now: Time)
      returns (r: Result<Challenge, Error>)
      modifies this`staged
      ensures var verdict := Judge(old(staged), id, code, purpose.Label(), keys, policy, now);
              match verdict
              case Unusable => r == Err(InvalidChallenge) && staged == old(staged)
              case KeyMissing => r == Err(VerificationUnavailable)
              case Wrong => r == Err(InvalidChallenge) && staged == Tried(old(staged), id)
              case Good => staged == Spent(old(staged), id, now) && r == Ok(staged.challenges[id])
    {
      if id !in staged.challenges || staged.challenges[id].purpose != purpose.Label()
         || staged.challenges[id].consumedAt.Some? || staged.challenges[id].expiresAt <= now
         || staged.challenges[id].attempts >= policy.attempts {
        return Err(InvalidChallenge);
      }
      var row := staged.challenges[id].(attempts := staged.challenges[id].attempts + 1);
      staged := staged.(challenges := staged.challenges[id := row]);
      if row.keyVersion !in keys.secrets {
        return Err(VerificationUnavailable);
      }
      if row.digest != Digest(keys.secrets[row.keyVersion], id, row.purpose, code) {
        return Err(InvalidChallenge);
      }
      row := row.(consumedAt := Some(now));
      staged := staged.(challenges := staged.challenges[id := row]);
      return Ok(row);
    }

    method StartRegistration(email: Email, keys: Keys, now: Time, id: Id, decoy: Id) returns (r: Result<Id, Error>)
      requires Fresh() && id !in committed.challenges
      modifies this
      ensures var s := Step(BeginRegistration(email, id), keys, now);
              && committed == Perform(old(committed), policy, s)
              && Raises(old(committed), policy, s) == (if r.Err? then Some(r.error) else None)
              && (r.Ok? ==> r.value == if Issues(old(committed), policy, s) then id else decoy)
      ensures Fresh()
    {
      ghost var s := Step(BeginRegistration(email, id), keys, now);
      DbOkStep(committed, policy, s);
      hide DbOk;
      if email in staged.users {
        r := Ok(decoy);
      } else {
        r := IssueChallenge(email, Registration, keys, now, id, decoy);
        if r.Err? {
          Rollback();
          return;
        }
      }
      Commit();
    }

    method FinishRegistration(id: Id, code: string, password: string, acceptable: bool, keys: Keys, now: Time,
                              user: UserId)
      returns (r: Option<Error>)
      requires Fresh()
      modifies this
      ensures var s := Step(CompleteRegistration(id, code, password, acceptable, user), keys, now);
              committed == Perform(old(committed), policy, s) && r == Raises(old(committed), policy, s)
      ensures Fresh()
    {
      ghost var s := Step(CompleteRegistration(id, code, password, acceptable, user), keys, now);
      DbOkStep(committed, policy, s);
      hide DbOk;
      if !acceptable {
        return Some(PasswordRejected);
      }
      var consumed := ConsumeChallenge(id, code, Registration, keys, now);
      if consumed.Err? {
        if consumed.error == InvalidChallenge {
          Commit();
        } else {
          Rollback();
        }
        return Some(consumed.error);
      }
      var email := consumed.value.email;
      if email in staged.users {
        Rollback();
        return Some(InvalidChallenge);
      }
      staged := staged.(users := staged.users[email := User(user, true, true)]);
      staged := staged.(passwords := staged.passwords[user := password]);
      Commit();
      return None;
    }

    /** seen is the database begin_reset read before it took the lock of the address. */
    method StartReset(seen: Db, email: Email, keys: Keys, now: Time, id: Id, decoy: Id) returns (r: Result<Id, Error>)
      requires Fresh() && id !in committed.challenges
      modifies this
      ensures var s := Step(BeginReset(email, id, MayReset(seen, email)), keys, now);
              && committed == Perform(old(committed), policy, s)
              && Raises(old(committed), policy, s) == (if r.Err? then Some(r.error) else None)
              && (r.Ok? ==> r.value == if Issues(old(committed), policy, s) then id else decoy)
      ensures Fresh()
    {
      ghost var s := Step(BeginReset(email, id, MayReset(seen, email)), keys, now);
      DbOkStep(committed, policy, s);
      hide DbOk;
      if email !in seen.users || !seen.users[email].active || !seen.users[email].verified
         || seen.users[email].id !in seen.passwords {
        r := Ok(decoy);
      } else {
        r := IssueChallenge(email, PasswordReset, keys, now, id, decoy);
        if r.Err? {
          Rollback();
          return;
        }
      }
      Commit();
    }

    method FinishReset(id: Id, code: string, password: string, acceptable: bool, keys: Keys, now: Time)
      returns (r: Option<Error>)
      requires Fresh()
      modifies this
      ensures var s := Step(CompleteReset(id, code, password, acceptable), keys, now);
              committed == Perform(old(committed), policy, s) && r == Raises(old(committed), policy, s)
      ensures Fresh()
    {
      ghost var s := Step(CompleteReset(id, code, password, acceptable), keys, now);
      DbOkStep(committed, policy, s);
      hide DbOk;
      if !acceptable {
        return Some(PasswordRejected);
      }
      var consumed := ConsumeChallenge(id, code, PasswordReset, keys, now);
      if consumed.Err? {
        if consumed.error == InvalidChallenge {
          Commit();
        } else {
          Rollback();
        }
        return Some(consumed.error);
      }
      var email := consumed.value.email;
      if email !in staged.users || !staged.users[email].active || !staged.users[email].verified {
        Rollback();
        return Some(AuthenticationRequired);
      }
      var user := staged.users[email].id;
      if user !in staged.passwords {
        Rollback();
        return Some(AuthenticationRequired);
      }
      staged := staged.(passwords := staged.passwords[user := password]);
      staged := staged.(sessions := map x | x in staged.sessions && staged.sessions[x] != user :: staged.sessions[x]);
      Commit();
      return None;
    }
  }

  lemma SlotIsOne(db: Db, policy: Policy, email: Email, purpose: string, id: Id)
    requires DbOk(db, policy) && id in Slot(db, email, purpose)
    ensures Slot(db, email, purpose) == {id}
  {
    forall x | x in Slot(db, email, purpose) ensures x == id {
      assert db.challenges[x].email == db.challenges[id].email;
    }
  }
}
