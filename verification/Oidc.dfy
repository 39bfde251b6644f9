/**
 * External identities (auth/oidc/service.py) beside the other transactions that create
 * users, interleaved statement by statement under advisory and row locks.
 */
module Oidc {
  import opened Basics

  type UserId = nat
  type RowId = nat
  type TxId = nat
  type Email = string

  /** A subject at a provider. */
  datatype External = External(provider: string, subject: string)

  datatype User = User(email: Email, active: bool, verified: bool)

  datatype Identity = Identity(user: UserId, external: External)

  datatype Db = Db(users: map<UserId, User>, passwords: set<UserId>, identities: map<RowId, Identity>)

  // Advisory locks on an external subject, an address or the membership, and user row locks.
  datatype Lock = ExternalLock(external: External) | MailLock(email: Email) | Membership | UserRow(user: UserId)

  datatype Intent = Login(email: Option<Email>) | Link(actor: UserId) | Reauthenticate(actor: UserId)

  /** The external identity as finish loaded it. */
  datatype Loaded = Loaded(row: RowId, user: UserId)

  /** A transaction, named by the statement it runs next. */
  datatype Tx =
    | LockSubject(external: External, intent: Intent)
    | FindIdentity(external: External, intent: Intent)
    | LockOwner(external: External, intent: Intent, found: Option<Loaded>)
    | Resolve(external: External, intent: Intent, found: Option<Loaded>)
    | FindLinked(actor: UserId, provider: string)
    | LockLinked(actor: UserId, external: External)
    | Authorize(actor: UserId, provider: string)
    | FindAgain(actor: UserId, provider: string)
    | CountMethods(actor: UserId, row: RowId)
    | FindPassword(actor: UserId, row: RowId, count: nat)
    | Decide(actor: UserId, row: RowId, count: nat, password: bool)
    | LockMail(email: Email)
    | LockMembership(email: Email)
    | FindUser(email: Email)
    | Commit(write: Write)

  datatype Write =
    | Touch(row: RowId, identity: Identity)
    | Attach(identity: Identity)
    | OpenExternal(email: Email, external: External)
    | OpenPassword(email: Email)
    | Detach(row: RowId, actor: UserId)

  /** drawn holds every UUID ever used. */
  datatype State = State(db: Db, locks: map<Lock, TxId>, txs: map<TxId, Tx>, drawn: set<nat>)

  // ---- queries ---------------------------------------------------------------------

  predicate Has(db: Db, row: RowId, external: External) {
    row in db.identities && db.identities[row].external == external
  }

  ghost predicate Free(db: Db, external: External) {
    forall row :: !Has(db, row, external)
  }

  predicate HasProvider(db: Db, row: RowId, user: UserId, provider: string) {
    && row in db.identities && db.identities[row].user == user
    && db.identities[row].external.provider == provider
  }

  function Owned(db: Db, user: UserId): set<RowId> {
    set row | row in db.identities && db.identities[row].user == user
  }

  predicate MayAct(db: Db, user: UserId) {
    user in db.users && db.users[user].active && db.users[user].verified
  }

  predicate MailTaken(db: Db, email: Email) {
    exists user :: user in db.users && db.users[user].email == email
  }

  // ---- one statement ---------------------------------------------------------------

  /** The lock the next statement takes. */
  function Wanted(tx: Tx): Option<Lock> {
    match tx
    case LockSubject(external, _) => Some(ExternalLock(external))
    case LockOwner(_, intent, found) =>
      if !intent.Login? then Some(UserRow(intent.actor))
      else if found.Some? then Some(UserRow(found.value.user))
      else if intent.email.Some? then Some(MailLock(intent.email.value))
      else None
    case LockLinked(_, external) => Some(ExternalLock(external))
    case Authorize(actor, _) => Some(UserRow(actor))
    case LockMail(email) => Some(MailLock(email))
    case LockMembership(_) => Some(Membership)
    case _ => None
  }

  predicate Available(s: State, t: TxId, lock: Lock) {
    lock in s.locks ==> s.locks[lock] == t
  }

  /**
   * The statement after this one; None is a call that raises.  A call may also raise because of
   * its session, which Abort covers.
   */
  ghost predicate Follows(db: Db, tx: Tx, next: Option<Tx>) {
    match tx
    case LockSubject(external, intent) => next == Some(FindIdentity(external, intent))
    case FindIdentity(external, intent) =>
      if Free(db, external) then next == Some(LockOwner(external, intent, None))
      else exists row :: Has(db, row, external)
                         && next == Some(LockOwner(external, intent, Some(Loaded(row, db.identities[row].user))))
    case LockOwner(external, intent, found) =>
      next == (if intent.Login? && found.None? then
                 (if intent.email.Some? then Some(Resolve(external, intent, found)) else None)
               else if MayAct(db, if intent.Login? then found.value.user else intent.actor) then
                 Some(Resolve(external, intent, found))
               else None)
    case Resolve(external, intent, found) =>
      (match intent
       case Login(email) =>
         next == (if found.Some? then Some(Commit(Touch(found.value.row, Identity(found.value.user, external))))
                  else if email.None? || MailTaken(db, email.value) then None
                  else Some(Commit(OpenExternal(email.value, external))))
       case Reauthenticate(actor) =>
         next == (if found.Some? && found.value.user == actor then
                   Some(Commit(Touch(found.value.row, Identity(actor, external)))) else None)
       case Link(actor) =>
         next == (if found.Some? || exists row :: HasProvider(db, row, actor, external.provider) then None
                  else Some(Commit(Attach(Identity(actor, external))))))
    case FindLinked(actor, provider) =>
      if exists row :: HasProvider(db, row, actor, provider) then
        exists row :: HasProvider(db, row, actor, provider)
                      && next == Some(LockLinked(actor, db.identities[row].external))
      else next.None?
    case LockLinked(actor, external) => next == Some(Authorize(actor, external.provider))
    case Authorize(actor, provider) => next == if MayAct(db, actor) then Some(FindAgain(actor, provider)) else None
    case FindAgain(actor, provider) =>
      if exists row :: HasProvider(db, row, actor, provider) then
        exists row :: HasProvider(db, row, actor, provider) && next == Some(CountMethods(actor, row))
      else next.None?
    case CountMethods(actor, row) => next == Some(FindPassword(actor, row, |Owned(db, actor)|))
    case FindPassword(actor, row, count) => next == Some(Decide(actor, row, count, actor in db.passwords))
    case Decide(actor, row, count, password) =>
      next == if count <= 1 && !password then None else Some(Commit(Detach(row, actor)))
    case LockMail(email) => next == Some(FindUser(email))
    case LockMembership(email) => next == Some(FindUser(email))
    case FindUser(email) => next == if MailTaken(db, email) then None else Some(Commit(OpenPassword(email)))
    case Commit(_) => false
  }

  /** The statement at the database raises: a stale update, or the unique address. */
  predicate Rejected(db: Db, write: Write) {
    match write
    case Touch(row, _) => row !in db.identities
    case OpenExternal(email, _) => MailTaken(db, email)
    case OpenPassword(email) => MailTaken(db, email)
    case _ => false
  }

  function Written(db: Db, write: Write, user: UserId, row: RowId): Db {
    match write
    case Touch(_, _) => db
    case Attach(identity) => db.(identities := db.identities[row := identity])
    case OpenExternal(email, external) =>
      db.(users := db.users[user := User(email, true, true)],
          identities := db.identities[row := Identity(user, external)])
    case OpenPassword(email) =>
      db.(users := db.users[user := User(email, true, true)], passwords := db.passwords + {user})
    case Detach(gone, _) => db.(identities := db.identities - {gone})
  }

  // ---- the machine -----------------------------------------------------------------

  datatype Action =
    | Begin(t: TxId, tx: Tx)
    | Advance(t: TxId, next: Tx)
    | Persist(t: TxId, user: UserId, row: RowId)
    | Abort(t: TxId)
    | Administer(user: UserId, active: bool, verified: bool)

  /** finish, unlink, complete_registration and bootstrap. */
  predicate Opening(tx: Tx) {
    tx.LockSubject? || tx.FindLinked? || tx.LockMail? || tx.LockMembership?
  }

  ghost predicate Enabled(s: State, a: Action) {
    match a
    case Begin(t, tx) => t !in s.txs && Opening(tx)
    case Advance(t, next) =>
      && t in s.txs
      && (Wanted(s.txs[t]).Some? ==> Available(s, t, Wanted(s.txs[t]).value))
      && Follows(s.db, s.txs[t], Some(next))
    case Persist(t, user, row) =>
      && t in s.txs && s.txs[t].Commit? && !Rejected(s.db, s.txs[t].write)
      && user !in s.drawn && row !in s.drawn && user != row
    case Abort(t) => t in s.txs
    case Administer(user, _, _) => user in s.db.users && UserRow(user) !in s.locks
  }

  function Released(locks: map<Lock, TxId>, t: TxId): map<Lock, TxId> {
    map l | l in locks && locks[l] != t :: locks[l]
  }

  function Left(s: State, t: TxId): State {
    s.(locks := Released(s.locks, t), txs := s.txs - {t})
  }

  ghost function Apply(s: State, a: Action): State
    requires Enabled(s, a)
  {
    match a
    case Begin(t, tx) => s.(txs := s.txs[t := tx])
    case Advance(t, next) =>
      var wanted := Wanted(s.txs[t]);
      s.(txs := s.txs[t := next], locks := if wanted.Some? then s.locks[wanted.value := t] else s.locks)
    case Persist(t, user, row) =>
      Left(s, t).(db := Written(s.db, s.txs[t].write, user, row), drawn := s.drawn + {user, row})
    case Abort(t) => Left(s, t)
    case Administer(user, active, verified) =>
      s.(db := s.db.(users := s.db.users[user := s.db.users[user].(active := active, verified := verified)]))
  }

  ghost predicate Next(s: State, a: Action, t: State) {
    Enabled(s, a) && t == Apply(s, a)
  }

  ghost predicate Run(states: seq<State>, actions: seq<Action>) {
    && |states| == |actions| + 1
    && states[0] == State(Db(map[], {}, map[]), map[], map[], {})
    && forall i | 0 <= i < |actions| :: Next(states[i], actions[i], states[i + 1])
  }

  // ---- invariant -------------------------------------------------------------------

  predicate CanLogIn(db: Db, user: UserId) {
    user in db.passwords || Owned(db, user) != {}
  }

  /** Every user can log in; a subject names one user, and a user has one subject per provider. */
  ghost predicate DbOk(db: Db) {
    && (forall u | u in db.users :: CanLogIn(db, u))
    && (forall u | u in db.passwords :: u in db.users)
    && (forall r | r in db.identities :: db.identities[r].user in db.users)
    && (forall x, y | x in db.identities && y in db.identities && x != y ::
          db.identities[x].external != db.identities[y].external)
    && (forall x, y | x in db.identities && y in db.identities && x != y ::
          db.identities[x].user == db.identities[y].user ==>
            db.identities[x].external.provider != db.identities[y].external.provider)
  }

  /** The user a handshake acts for, unless it opens a new account. */
  function Acting(intent: Intent, found: Option<Loaded>): Option<UserId> {
    if !intent.Login? then Some(intent.actor) else if found.Some? then Some(found.value.user) else None
  }

  /** The account exists, is active and has a verified address. */
  predicate InForce(db: Db, user: UserId) {
    user in db.users && db.users[user].active && db.users[user].verified
  }

  /** The locks a transaction holds before its next statement. */
  function Holds(tx: Tx): set<Lock> {
    match tx
    case FindIdentity(external, _) => {ExternalLock(external)}
    case LockOwner(external, _, _) => {ExternalLock(external)}
    case Resolve(external, intent, found) =>
      {ExternalLock(external)} + if Acting(intent, found).Some? then {UserRow(Acting(intent, found).value)} else {}
    case FindAgain(actor, _) => {UserRow(actor)}
    case CountMethods(actor, _) => {UserRow(actor)}
    case FindPassword(actor, _, _) => {UserRow(actor)}
    case Decide(actor, _, _, _) => {UserRow(actor)}
    case Commit(write) =>
      (match write
       case Touch(_, identity) => {UserRow(identity.user)}
       case Attach(identity) => {ExternalLock(identity.external), UserRow(identity.user)}
       case OpenExternal(_, external) => {ExternalLock(external)}
       case Detach(_, actor) => {UserRow(actor)}
       case _ => {})
    case _ => {}
  }

  /** A loaded row is either gone or still the one that was read. */
  predicate Matches(db: Db, row: RowId, identity: Identity) {
    row in db.identities ==> db.identities[row] == identity
  }

  predicate MatchesLoaded(db: Db, found: Option<Loaded>, external: External) {
    found.Some? ==> Matches(db, found.value.row, Identity(found.value.user, external))
  }

  /** The rows a transaction keeps in memory. */
  function Remembered(tx: Tx): set<RowId> {
    match tx
    case LockOwner(_, _, found) => if found.Some? then {found.value.row} else {}
    case Resolve(_, _, found) => if found.Some? then {found.value.row} else {}
    case Commit(write) => if write.Touch? then {write.row} else {}
    case _ => {}
  }

  /** What a transaction has read stays true while it holds its locks. */
  ghost predicate StillTrue(db: Db, tx: Tx) {
    match tx
    case LockOwner(external, _, found) => (found.None? ==> Free(db, external)) && MatchesLoaded(db, found, external)
    case Resolve(external, intent, found) =>
      && (found.None? ==> Free(db, external)) && MatchesLoaded(db, found, external)
      && (Acting(intent, found).Some? ==> InForce(db, Acting(intent, found).value))
    case FindAgain(actor, _) => InForce(db, actor)
    case CountMethods(actor, row) => InForce(db, actor) && row in Owned(db, actor)
    case FindPassword(actor, row, count) =>
      InForce(db, actor) && row in Owned(db, actor) && count == |Owned(db, actor)|
    case Decide(actor, row, count, password) =>
      && InForce(db, actor) && row in Owned(db, actor) && count == |Owned(db, actor)|
      && (password <==> actor in db.passwords)
    case Commit(write) =>
      (match write
       case Attach(identity) =>
         && InForce(db, identity.user) && Free(db, identity.external)
         && forall row | row in Owned(db, identity.user) ::
              db.identities[row].external.provider != identity.external.provider
       case Touch(row, identity) => Matches(db, row, identity) && InForce(db, identity.user)
       case OpenExternal(_, external) => Free(db, external)
       case Detach(row, actor) =>
         && InForce(db, actor) && row in Owned(db, actor)
         && (actor in db.passwords || Owned(db, actor) != {row})
       case _ => true)
    case _ => true
  }

  ghost predicate TxOk(s: State, t: TxId) {
    && t in s.txs
    && (forall l | l in Holds(s.txs[t]) :: l in s.locks && s.locks[l] == t)
    && Remembered(s.txs[t]) <= s.drawn
    && StillTrue(s.db, s.txs[t])
  }

  ghost predicate Inv(s: State) {
    && DbOk(s.db)
    && (forall u | u in s.db.users :: u in s.drawn)
    && (forall r | r in s.db.identities :: r in s.drawn)
    && (forall t | t in s.txs :: TxOk(s, t))
  }

  /** How a commit that holds the locks `held` may change what others have read. */
  ghost predicate Frames(db: Db, db': Db, held: set<Lock>, drawn: set<nat>) {
    && (forall r | r in db'.identities && r in drawn :: r in db.identities)
    && (forall r | r in db.identities && r in db'.identities :: db'.identities[r] == db.identities[r])
    && (forall x: External | ExternalLock(x) !in held :: Free(db, x) ==> Free(db', x))
    && (forall u | u in db.users && UserRow(u) !in held :: Owned(db', u) == Owned(db, u))
    && (forall u | u in db.users :: u in db'.users)
    && (forall u | u in db.users && UserRow(u) !in held :: db'.users[u] == db.users[u])
    && (forall u | u in db.users :: u in db'.passwords <==> u in db.passwords)
  }

  lemma StaysTrue(db: Db, db': Db, held: set<Lock>, drawn: set<nat>, tx: Tx)
    requires StillTrue(db, tx) && Frames(db, db', held, drawn) && Holds(tx) !! held && Remembered(tx) <= drawn
    ensures StillTrue(db', tx)
  {
    hide Free;
    match tx
    case LockOwner(external, _, _) => assert ExternalLock(external) in Holds(tx);
    case Resolve(external, intent, found) =>
      assert ExternalLock(external) in Holds(tx);
      assert Acting(intent, found).Some? ==> UserRow(Acting(intent, found).value) in Holds(tx);
    case FindAgain(actor, _) => assert UserRow(actor) in Holds(tx);
    case CountMethods(actor, _) => assert UserRow(actor) in Holds(tx);
    case FindPassword(actor, _, _) => assert UserRow(actor) in Holds(tx);
    case Decide(actor, _, _, _) => assert UserRow(actor) in Holds(tx);
    case Commit(write) => CommitStaysTrue(db, db', held, drawn, write);
    case _ =>
  }

  lemma CommitStaysTrue(db: Db, db': Db, held: set<Lock>, drawn: set<nat>, write: Write)
    requires StillTrue(db, Commit(write)) && Frames(db, db', held, drawn) && Holds(Commit(write)) !! held
    requires Remembered(Commit(write)) <= drawn
    ensures StillTrue(db', Commit(write))
  {
    hide Free;
    match write
    case Attach(identity) =>
      assert ExternalLock(identity.external) in Holds(Commit(write)) && UserRow(identity.user) in Holds(Commit(write));
      assert Owned(db', identity.user) == Owned(db, identity.user);
    case Touch(_, identity) => assert UserRow(identity.user) in Holds(Commit(write));
    case OpenExternal(_, external) => assert ExternalLock(external) in Holds(Commit(write));
    case Detach(row, actor) => assert UserRow(actor) in Holds(Commit(write));
    case _ =>
  }

  lemma WrittenFrames(db: Db, write: Write, user: UserId, row: RowId, drawn: set<nat>)
    requires DbOk(db) && StillTrue(db, Commit(write))
    requires user !in db.users && row !in db.identities && row !in drawn
    ensures Frames(db, Written(db, write, user, row), Holds(Commit(write)), drawn)
  {
    var db' := Written(db, write, user, row);
    forall x: External | ExternalLock(x) !in Holds(Commit(write)) && Free(db, x) ensures Free(db', x) {
      forall r ensures !Has(db', r, x) {
        assert !Has(db, r, x);
      }
    }
  }

  function Without(db: Db, row: RowId): Db {
    db.(identities := db.identities - {row})
  }

  lemma DetachOk(db: Db, row: RowId, actor: UserId)
    requires DbOk(db) && row in Owned(db, actor) && (actor in db.passwords || Owned(db, actor) != {row})
    ensures DbOk(Without(db, row))
  {
    var db' := Without(db, row);
    forall u | u in db'.users ensures CanLogIn(db', u) {
      assert CanLogIn(db, u);
      if u !in db.passwords {
        var kept :| kept in Owned(db, u) && kept != row;
        assert kept in Owned(db', u);
      }
    }
  }

  lemma AttachOk(db: Db, identity: Identity, row: RowId)
    requires DbOk(db) && StillTrue(db, Commit(Attach(identity))) && row !in db.identities
    ensures DbOk(db.(identities := db.identities[row := identity]))
  {
    var db' := db.(identities := db.identities[row := identity]);
    NewIdentityIsUnique(db, identity, row);
    forall u | u in db'.users ensures CanLogIn(db', u) {
      assert CanLogIn(db, u) && Owned(db, u) <= Owned(db', u);
    }
    hide Free, CanLogIn, StillTrue;
  }

  lemma OpenOk(db: Db, write: Write, user: UserId, row: RowId)
    requires DbOk(db) && StillTrue(db, Commit(write)) && (write.OpenExternal? || write.OpenPassword?)
    requires user !in db.users && row !in db.identities
    ensures DbOk(Written(db, write, user, row))
  {
    var db' := Written(db, write, user, row);
    if write.OpenExternal? {
      NewIdentityIsUnique(db, Identity(user, write.external), row);
      assert row in Owned(db', user);
    }
    forall u | u in db.users ensures CanLogIn(db', u) {
      assert CanLogIn(db, u) && Owned(db, u) <= Owned(db', u);
    }
    hide Free, CanLogIn, StillTrue;
  }

  lemma WrittenOk(db: Db, write: Write, user: UserId, row: RowId)
    requires DbOk(db) && StillTrue(db, Commit(write)) && user !in db.users && row !in db.identities
    ensures DbOk(Written(db, write, user, row))
  {
    hide DbOk, Free, CanLogIn;
    match write
    case Attach(identity) => AttachOk(db, identity, row);
    case Detach(gone, actor) => DetachOk(db, gone, actor);
    case Touch(_, _) =>
    case _ => OpenOk(db, write, user, row);
  }

  lemma NewIdentityIsUnique(db: Db, identity: Identity, row: RowId)
    requires DbOk(db) && row !in db.identities && Free(db, identity.external)
    requires forall r | r in db.identities :: db.identities[r].user == identity.user ==>
               db.identities[r].external.provider != identity.external.provider
    ensures var more := db.identities[row := identity];
            && (forall x, y | x in more && y in more && x != y :: more[x].external != more[y].external)
            && (forall x, y | x in more && y in more && x != y ::
                  more[x].user == more[y].user ==> more[x].external.provider != more[y].external.provider)
  {
    forall r | r in db.identities ensures db.identities[r].external != identity.external {
      assert !Has(db, r, identity.external);
    }
  }

  /** What the next statement may rely on. */
  ghost predicate Carries(db: Db, tx: Tx, next: Tx) {
    && StillTrue(db, next)
    && Remembered(next) <= Remembered(tx) + db.identities.Keys
    && Holds(next) <= Holds(tx) + (if Wanted(tx).Some? then {Wanted(tx).value} else {})
  }

  lemma FinishCarries(db: Db, tx: Tx, next: Tx)
    requires tx.LockSubject? || tx.FindIdentity? || tx.LockOwner?
    requires StillTrue(db, tx) && Follows(db, tx, Some(next))
    ensures Carries(db, tx, next)
  {
    hide Free;
  }

  lemma ResolveCarries(db: Db, tx: Tx, next: Tx)
    requires tx.Resolve? && StillTrue(db, tx) && Follows(db, tx, Some(next))
    ensures Carries(db, tx, next)
  {
    hide Free;
    if tx.intent.Link? {
      forall row | row in Owned(db, tx.intent.actor)
        ensures db.identities[row].external.provider != tx.external.provider
      {
        assert !HasProvider(db, row, tx.intent.actor, tx.external.provider);
      }
    }
  }

  lemma UnlinkCarries(db: Db, tx: Tx, next: Tx)
    requires tx.FindLinked? || tx.LockLinked? || tx.Authorize? || tx.FindAgain? || tx.CountMethods? || tx.FindPassword?
    requires StillTrue(db, tx) && Follows(db, tx, Some(next))
    ensures Carries(db, tx, next)
  {
  }

  lemma DecideCarries(db: Db, tx: Tx, next: Tx)
    requires tx.Decide? && StillTrue(db, tx) && Follows(db, tx, Some(next))
    ensures Carries(db, tx, next)
  {
    if Owned(db, tx.actor) == {tx.row} {
      assert |Owned(db, tx.actor)| == 1;
    }
  }

  lemma FollowsTrue(db: Db, tx: Tx, next: Tx)
    requires StillTrue(db, tx) && Follows(db, tx, Some(next))
    ensures Carries(db, tx, next)
  {
    if tx.LockSubject? || tx.FindIdentity? || tx.LockOwner? {
      FinishCarries(db, tx, next);
    } else if tx.Resolve? {
      ResolveCarries(db, tx, next);
    } else if tx.Decide? {
      DecideCarries(db, tx, next);
    } else if tx.LockMail? || tx.LockMembership? || tx.FindUser? {
      hide MailTaken;
    } else {
      UnlinkCarries(db, tx, next);
    }
  }

  // ---- every step keeps the invariant ----------------------------------------------

  lemma AdvanceOk(s: State, a: Action, s': State, t: TxId)
    requires Inv(s) && Next(s, a, s') && a.Advance? && t in s'.txs
    ensures TxOk(s', t)
  {
    assert TxOk(s, a.t) && TxOk(s, t);
    if t == a.t {
      FollowsTrue(s.db, s.txs[t], a.next);
    }
    hide StillTrue, Follows, DbOk, Holds, Wanted, Remembered;
  }

  lemma PersistOk(s: State, a: Action, s': State, t: TxId)
    requires Inv(s) && Next(s, a, s') && a.Persist? && t in s'.txs
    ensures TxOk(s', t)
  {
    assert TxOk(s, a.t) && TxOk(s, t);
    var write := s.txs[a.t].write;
    assert a.user !in s.db.users && a.row !in s.db.identities;
    hide StillTrue, DbOk, Holds, Written, Remembered, Frames;
    WrittenFrames(s.db, write, a.user, a.row, s.drawn);
    assert Holds(s.txs[t]) !! Holds(s.txs[a.t]);
    StaysTrue(s.db, s'.db, Holds(Commit(write)), s.drawn, s.txs[t]);
  }

  lemma OtherOk(s: State, a: Action, s': State, t: TxId)
    requires Inv(s) && Next(s, a, s') && (a.Begin? || a.Abort? || a.Administer?) && t in s'.txs
    ensures TxOk(s', t)
  {
    if a.Begin? && t == a.t {
      assert Holds(a.tx) == {} && Remembered(a.tx) == {};
    } else {
      assert TxOk(s, t);
      if a.Administer? {
        AdministerFrames(s, a, s');
        StaysTrue(s.db, s'.db, {UserRow(a.user)}, s.drawn, s.txs[t]);
      }
      hide StillTrue, DbOk, Holds, Remembered;
    }
  }

  lemma AdministerFrames(s: State, a: Action, s': State)
    requires Next(s, a, s') && a.Administer?
    ensures Frames(s.db, s'.db, {UserRow(a.user)}, s.drawn)
  {
    forall x: External | Free(s.db, x) ensures Free(s'.db, x) {
      forall r ensures !Has(s'.db, r, x) {
        assert !Has(s.db, r, x);
      }
    }
  }

  lemma DbOkStep(s: State, a: Action, s': State)
    requires Inv(s) && Next(s, a, s')
    ensures DbOk(s'.db)
  {
    if a.Persist? {
      assert TxOk(s, a.t);
      WrittenOk(s.db, s.txs[a.t].write, a.user, a.row);
      hide DbOk, StillTrue;
    } else if a.Administer? {
      assert forall u :: CanLogIn(s.db, u) ==> CanLogIn(s'.db, u);
    } else {
      hide DbOk;
    }
  }

  lemma DrawnStep(s: State, a: Action, s': State)
    requires Inv(s) && Next(s, a, s')
    ensures forall u | u in s'.db.users :: u in s'.drawn
    ensures forall r | r in s'.db.identities :: r in s'.drawn
  {
    hide DbOk, Follows, TxOk;
  }

  lemma InvStep(s: State, a: Action, s': State)
    requires Inv(s) && Next(s, a, s')
    ensures Inv(s')
  {
    DbOkStep(s, a, s');
    DrawnStep(s, a, s');
    forall t | t in s'.txs ensures TxOk(s', t) {
      if a.Advance? {
        AdvanceOk(s, a, s', t);
      } else if a.Persist? {
        PersistOk(s, a, s', t);
      } else {
        OtherOk(s, a, s', t);
      }
    }
    hide DbOk, TxOk, Next;
  }

  lemma {:induction false} RunInv(states: seq<State>, actions: seq<Action>, i: nat)
    requires Run(states, actions) && i < |states|
    ensures Inv(states[i])
  {
    if i > 0 {
      RunInv(states, actions, i - 1);
      assert Next(states[i - 1], actions[i - 1], states[i]);
      InvStep(states[i - 1], actions[i - 1], states[i]);
    }
    hide Next, DbOk, TxOk;
  }

  // ---- what every interleaving keeps -----------------------------------------------

  /** Once committed, a user is never left without a password or an external identity. */
  lemma {:induction false} UsersKeepALoginMethod(states: seq<State>, actions: seq<Action>, i: nat, j: nat, user: UserId)
    requires Run(states, actions) && i <= j < |states| && user in states[i].db.users
    ensures user in states[j].db.users && CanLogIn(states[j].db, user)
  {
    RunInv(states, actions, j);
    if i < j {
      UsersKeepALoginMethod(states, actions, i, j - 1, user);
      assert Next(states[j - 1], actions[j - 1], states[j]);
      hide Follows, TxOk, StillTrue;
    }
  }

  /** A subject never names two users, and no user has two subjects at one provider. */
  lemma IdentitiesAreUnique(states: seq<State>, actions: seq<Action>, i: nat, x: RowId, y: RowId)
    requires Run(states, actions) && i < |states|
    requires x in states[i].db.identities && y in states[i].db.identities && x != y
    ensures var a, b := states[i].db.identities[x], states[i].db.identities[y];
            a.external != b.external && (a.user == b.user ==> a.external.provider != b.external.provider)
  {
    RunInv(states, actions, i);
    hide TxOk, CanLogIn, Run;
  }

  /** The unique constraints on external identities are never what stops an insert. */
  lemma ConstraintsNeverFire(states: seq<State>, actions: seq<Action>, i: nat, t: TxId, row: RowId)
    requires Run(states, actions) && i < |states| && t in states[i].txs && row in states[i].db.identities
    ensures var taken := states[i].db.identities[row];
            states[i].txs[t].Commit? ==>
              match states[i].txs[t].write
              case Attach(identity) =>
                && taken.external != identity.external
                && (taken.user == identity.user ==> taken.external.provider != identity.external.provider)
              case OpenExternal(_, external) => taken.external != external
              case _ => true
  {
    RunInv(states, actions, i);
    var db, tx := states[i].db, states[i].txs[t];
    assert TxOk(states[i], t);
    hide Run, DbOk, TxOk;
    if tx.Commit? && tx.write.Attach? {
      assert !Has(db, row, tx.write.identity.external);
      assert row in Owned(db, tx.write.identity.user) <==> db.identities[row].user == tx.write.identity.user;
    } else if tx.Commit? && tx.write.OpenExternal? {
      assert !Has(db, row, tx.write.external);
    }
  }

  /**
   * Unlinking is refused exactly when it would leave the actor without a login method, even
   * though the count and the password were read by earlier statements.
   */
  lemma FinalMethodIsRefusedExactly(states: seq<State>, actions: seq<Action>, i: nat, t: TxId)
    requires Run(states, actions) && i < |states| && t in states[i].txs && states[i].txs[t].Decide?
    ensures var db, tx := states[i].db, states[i].txs[t];
            Follows(db, tx, None) <==> !CanLogIn(Without(db, tx.row), tx.actor)
  {
    RunInv(states, actions, i);
    var db, tx := states[i].db, states[i].txs[t];
    assert TxOk(states[i], t);
    hide Run, DbOk;
    LastMethod(db, tx.actor, tx.row);
  }

  /** A login or reauthentication that commits is for the user who owns the subject at that moment. */
  lemma AuthenticatedAsOwner(states: seq<State>, actions: seq<Action>, i: nat)
    requires Run(states, actions) && i < |actions| && actions[i].Persist?
    requires actions[i].t in states[i].txs && states[i].txs[actions[i].t].Commit?
    requires states[i].txs[actions[i].t].write.Touch?
    ensures var write := states[i].txs[actions[i].t].write;
            write.row in states[i].db.identities && states[i].db.identities[write.row] == write.identity
  {
    RunInv(states, actions, i);
    assert Next(states[i], actions[i], states[i + 1]);
    assert TxOk(states[i], actions[i].t);
    hide DbOk, Follows;
  }

  /**
   * A login, reauthentication, link or unlink commits only for an account that is active and
   * verified at that very moment, although it was checked by an earlier statement and
   * administrators may change accounts at any time.
   */
  lemma OnlyAccountsInForceAct(states: seq<State>, actions: seq<Action>, i: nat)
    requires Run(states, actions) && i < |actions| && actions[i].Persist?
    ensures actions[i].t in states[i].txs && states[i].txs[actions[i].t].Commit?
    ensures match states[i].txs[actions[i].t].write
            case Touch(_, identity) => InForce(states[i].db, identity.user)
            case Attach(identity) => InForce(states[i].db, identity.user)
            case Detach(_, actor) => InForce(states[i].db, actor)
            case _ => true
  {
    RunInv(states, actions, i);
    assert Next(states[i], actions[i], states[i + 1]);
    assert TxOk(states[i], actions[i].t);
    hide DbOk, Follows;
  }

  /** Addresses are unique: no two users ever share one. */
  lemma {:induction false} AddressesAreUnique(states: seq<State>, actions: seq<Action>, i: nat, u: UserId, v: UserId)
    requires Run(states, actions) && i < |states| && u in states[i].db.users && v in states[i].db.users && u != v
    ensures states[i].db.users[u].email != states[i].db.users[v].email
  {
    if i > 0 {
      var s, a := states[i - 1], actions[i - 1];
      assert Next(s, a, states[i]);
      hide Follows;
      if u in s.db.users && v in s.db.users {
        AddressesAreUnique(states, actions, i - 1, u, v);
      }
    }
  }

  /** Counting the identities answers whether the actor could still log in without one of them. */
  lemma LastMethod(db: Db, actor: UserId, row: RowId)
    requires row in Owned(db, actor)
    ensures CanLogIn(Without(db, row), actor) <==> |Owned(db, actor)| > 1 || actor in db.passwords
    ensures CanLogIn(Without(db, row), actor) ==> actor in db.passwords || Owned(db, actor) != {row}
  {
    var left := Without(db, row);
    assert Owned(left, actor) == Owned(db, actor) - {row};
    assert |Owned(left, actor)| == |Owned(db, actor)| - 1;
  }
}
