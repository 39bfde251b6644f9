/** The calls of IdentityService, left to themselves, are runs of the interleaved machine. */
module IdentityRuns {
  import opened Basics
  import opened Oidc
  import opened Identities

  /** actions take s to t. */
  ghost predicate Leads(s: State, actions: seq<Action>, t: State)
    decreases |actions|
  {
    if actions == [] then t == s
    else
      var n := |actions| - 1;
      exists mid :: Leads(s, actions[..n], mid) && Next(mid, actions[n], t)
  }

  lemma Then(s: State, actions: seq<Action>, mid: State, a: Action)
    requires Leads(s, actions, mid) && Enabled(mid, a)
    ensures Leads(s, actions + [a], Apply(mid, a))
  {
    assert (actions + [a])[..|actions|] == actions;
    assert Next(mid, a, Apply(mid, a));
    hide Next, Apply, Enabled;
  }

  /** Nobody else is at work, and t, user and row are fresh. */
  predicate Quiet(s: State, t: TxId, user: UserId, row: RowId) {
    t !in s.txs && s.locks == map[] && user !in s.drawn && row !in s.drawn && user != row
  }

  /** Transaction t is about to run tx, with these locks, and everything else is as in s. */
  predicate Reached(s: State, t: TxId, tx: Tx, locks: set<Lock>, u: State) {
    && u.db == s.db && u.drawn == s.drawn && u.txs == s.txs[t := tx]
    && u.locks.Keys == locks && forall l | l in u.locks :: u.locks[l] == t
  }

  lemma Opens(s: State, t: TxId, tx: Tx) returns (actions: seq<Action>, u: State)
    requires t !in s.txs && s.locks == map[] && Opening(tx)
    ensures Leads(s, actions, u) && Reached(s, t, tx, {}, u)
  {
    u := Apply(s, Begin(t, tx));
    assert Leads(s, [], s);
    Then(s, [], s, Begin(t, tx));
    actions := [] + [Begin(t, tx)];
  }

  lemma AdvanceReaches(s: State, mid: State, t: TxId, tx: Tx, locks: set<Lock>, next: Tx)
    requires Reached(s, t, tx, locks, mid) && Follows(s.db, tx, Some(next))
    ensures Enabled(mid, Advance(t, next))
    ensures Reached(s, t, next, locks + (if Wanted(tx).Some? then {Wanted(tx).value} else {}),
                    Apply(mid, Advance(t, next)))
  {
    hide Follows, Wanted;
    assert mid.txs[t := next] == s.txs[t := next];
  }

  lemma Advances(s: State, actions: seq<Action>, mid: State, t: TxId, tx: Tx, locks: set<Lock>, next: Tx)
    returns (more: seq<Action>, u: State)
    requires Leads(s, actions, mid) && Reached(s, t, tx, locks, mid) && Follows(s.db, tx, Some(next))
    ensures Leads(s, more, u)
    ensures Reached(s, t, next, locks + (if Wanted(tx).Some? then {Wanted(tx).value} else {}), u)
  {
    hide *;
    AdvanceReaches(s, mid, t, tx, locks, next);
    u := Apply(mid, Advance(t, next));
    Then(s, actions, mid, Advance(t, next));
    more := actions + [Advance(t, next)];
  }

  /** A statement that takes no lock. */
  lemma Reads(s: State, actions: seq<Action>, mid: State, t: TxId, tx: Tx, locks: set<Lock>, next: Tx)
    returns (more: seq<Action>, u: State)
    requires Leads(s, actions, mid) && Reached(s, t, tx, locks, mid) && Follows(s.db, tx, Some(next))
    requires Wanted(tx).None?
    ensures Leads(s, more, u) && Reached(s, t, next, locks, u)
  {
    hide *;
    more, u := Advances(s, actions, mid, t, tx, locks, next);
    assert locks + {} == locks;
  }

  lemma Persists(s: State, actions: seq<Action>, mid: State, t: TxId, write: Write, locks: set<Lock>, user: UserId,
                 row: RowId)
    returns (more: seq<Action>, u: State)
    requires Quiet(s, t, user, row) && Leads(s, actions, mid) && Reached(s, t, Commit(write), locks, mid)
    requires !Rejected(s.db, write)
    ensures Leads(s, more, u)
    ensures u == s.(db := Written(s.db, write, user, row), drawn := s.drawn + {user, row})
  {
    var a := Persist(t, user, row);
    hide Rejected, Written;
    u := Apply(mid, a);
    assert u.locks == map[];
    assert u.txs == s.txs;
    hide Leads;
    Then(s, actions, mid, a);
    more := actions + [a];
  }

  /** The intent of a handshake, and the write it comes to. */
  function IntentOf(purpose: Purpose, claims: Claims): Intent {
    match purpose
    case LoginAttempt => Login(if claims.verified then claims.address else None)
    case LinkAttempt(actor) => Link(actor.user)
    case ReauthenticateAttempt(actor) => Reauthenticate(actor.user)
  }

  /** The account the handshake is for, if there is one already, is in force. */
  ghost predicate MayFinish(db: Db, claims: Claims, purpose: Purpose) {
    match purpose
    case LoginAttempt => forall owner :: OwnedBy(db, claims.external, owner) ==> InForce(db, owner)
    case LinkAttempt(actor) => InForce(db, actor.user)
    case ReauthenticateAttempt(actor) => InForce(db, actor.user)
  }

  /** What FinishHandshake does when it returns, the machine can do, statement by statement. */
  lemma HandshakeIsARun(s: State, t: TxId, claims: Claims, purpose: Purpose, db': Db, user: UserId, row: RowId)
    returns (actions: seq<Action>, u: State)
    requires DbOk(s.db) && Quiet(s, t, user, row)
    requires Finished(s.db, db', claims, purpose, user, row) && MayFinish(s.db, claims, purpose)
    ensures Leads(s, actions, u) && u == s.(db := db', drawn := s.drawn + {user, row})
  {
    var x, intent := claims.external, IntentOf(purpose, claims);
    var found := Lookup(s.db, x);
    FoundFollows(s.db, x, intent, found);
    FinishFollows(s.db, claims, purpose, db', user, row, found);
    hide *;
    var mid, locks;
    actions, mid, locks := ResolvedRun(s, t, x, intent, found);
    var write := WriteOf(purpose, claims, found);
    actions, mid := Advances(s, actions, mid, t, Resolve(x, intent, found), locks, Commit(write));
    locks := locks + if Wanted(Resolve(x, intent, found)).Some? then {Wanted(Resolve(x, intent, found)).value} else {};
    actions, u := Persists(s, actions, mid, t, write, locks, user, row);
  }

  /** Up to the decision, with the locks taken by then. */
  lemma ResolvedRun(s: State, t: TxId, x: External, intent: Intent, found: Option<Loaded>)
    returns (actions: seq<Action>, mid: State, locks: set<Lock>)
    requires t !in s.txs && s.locks == map[]
    requires Follows(s.db, FindIdentity(x, intent), Some(LockOwner(x, intent, found)))
    requires Follows(s.db, LockOwner(x, intent, found), Some(Resolve(x, intent, found)))
    ensures Leads(s, actions, mid) && Reached(s, t, Resolve(x, intent, found), locks, mid)
  {
    assert Follows(s.db, LockSubject(x, intent), Some(FindIdentity(x, intent)));
    assert Opening(LockSubject(x, intent));
    hide *;
    actions, mid := Opens(s, t, LockSubject(x, intent));
    actions, mid := Advances(s, actions, mid, t, LockSubject(x, intent), {}, FindIdentity(x, intent));
    locks := {} + if Wanted(LockSubject(x, intent)).Some? then {Wanted(LockSubject(x, intent)).value} else {};
    actions, mid := Advances(s, actions, mid, t, FindIdentity(x, intent), locks, LockOwner(x, intent, found));
    locks := locks + if Wanted(FindIdentity(x, intent)).Some? then {Wanted(FindIdentity(x, intent)).value} else {};
    actions, mid := Advances(s, actions, mid, t, LockOwner(x, intent, found), locks, Resolve(x, intent, found));
    locks := locks + if Wanted(LockOwner(x, intent, found)).Some? then {Wanted(LockOwner(x, intent, found)).value}
                     else {};
  }

  lemma Lookup(db: Db, external: External) returns (found: Option<Loaded>)
    ensures found.None? <==> Free(db, external)
    ensures found.Some? ==>
              Has(db, found.value.row, external) && db.identities[found.value.row].user == found.value.user
  {
    if Free(db, external) {
      found := None;
    } else {
      var x :| Has(db, x, external);
      found := Some(Loaded(x, db.identities[x].user));
    }
  }

  lemma FoundFollows(db: Db, external: External, intent: Intent, found: Option<Loaded>)
    requires found.None? <==> Free(db, external)
    requires found.Some? ==>
               Has(db, found.value.row, external) && db.identities[found.value.row].user == found.value.user
    ensures Follows(db, FindIdentity(external, intent), Some(LockOwner(external, intent, found)))
  {
    hide Free;
    if found.Some? {
      assert Has(db, found.value.row, external);
    }
  }

  function WriteOf(purpose: Purpose, claims: Claims, found: Option<Loaded>): Write {
    match purpose
    case LoginAttempt =>
      if found.Some? then Touch(found.value.row, Identity(found.value.user, claims.external))
      else OpenExternal(claims.address.GetOr(""), claims.external)
    case LinkAttempt(actor) => Attach(Identity(actor.user, claims.external))
    case ReauthenticateAttempt(actor) =>
      Touch(if found.Some? then found.value.row else 0, Identity(actor.user, claims.external))
  }

  lemma FinishFollows(db: Db, claims: Claims, purpose: Purpose, db': Db, user: UserId, row: RowId,
                      found: Option<Loaded>)
    requires DbOk(db) && Finished(db, db', claims, purpose, user, row) && MayFinish(db, claims, purpose)
    requires found.None? <==> Free(db, claims.external)
    requires found.Some? ==> Has(db, found.value.row, claims.external)
                             && db.identities[found.value.row].user == found.value.user
    ensures var x, intent := claims.external, IntentOf(purpose, claims);
            && Follows(db, LockOwner(x, intent, found), Some(Resolve(x, intent, found)))
            && Follows(db, Resolve(x, intent, found), Some(Commit(WriteOf(purpose, claims, found))))
    ensures !Rejected(db, WriteOf(purpose, claims, found))
    ensures Written(db, WriteOf(purpose, claims, found), user, row) == db'
  {
    if found.Some? {
      assert OwnedBy(db, claims.external, found.value.user);
      assert forall owner :: OwnedBy(db, claims.external, owner) ==> owner == found.value.user;
    } else {
      assert forall owner :: !OwnedBy(db, claims.external, owner);
    }
    hide DbOk, Free, OwnedBy;
  }

  /** Up to the locks of the subject and of the actor's account. */
  lemma UnlinkLocks(s: State, t: TxId, actor: UserId, x: RowId) returns (actions: seq<Action>, mid: State)
    requires t !in s.txs && s.locks == map[] && UnlinkPath(s.db, actor, x)
    ensures Leads(s, actions, mid)
    ensures Reached(s, t, FindAgain(actor, s.db.identities[x].external.provider),
                    {ExternalLock(s.db.identities[x].external), UserRow(actor)}, mid)
  {
    var external, provider := s.db.identities[x].external, s.db.identities[x].external.provider;
    var a, e := UserRow(actor), ExternalLock(external);
    assert Wanted(FindLinked(actor, provider)).None? && Opening(FindLinked(actor, provider));
    assert Wanted(LockLinked(actor, external)) == Some(e) && Wanted(Authorize(actor, provider)) == Some(a);
    assert {} + {e} == {e} && {e} + {a} == {e, a};
    hide Leads, Reached, Follows, Wanted, Opening;
    actions, mid := Opens(s, t, FindLinked(actor, provider));
    actions, mid := Reads(s, actions, mid, t, FindLinked(actor, provider), {}, LockLinked(actor, external));
    actions, mid := Advances(s, actions, mid, t, LockLinked(actor, external), {}, Authorize(actor, provider));
    actions, mid := Advances(s, actions, mid, t, Authorize(actor, provider), {e}, FindAgain(actor, provider));
  }

  /** The counts, the decision and the commit, under both locks. */
  lemma UnlinkDecides(s: State, begun: seq<Action>, from: State, t: TxId, actor: UserId, x: RowId, user: UserId,
                      row: RowId)
    returns (actions: seq<Action>, u: State)
    requires Quiet(s, t, user, row) && UnlinkPath(s.db, actor, x) && Leads(s, begun, from)
    requires Reached(s, t, FindAgain(actor, s.db.identities[x].external.provider),
                     {ExternalLock(s.db.identities[x].external), UserRow(actor)}, from)
    ensures Leads(s, actions, u)
    ensures u == s.(db := Written(s.db, Detach(x, actor), user, row), drawn := s.drawn + {user, row})
  {
    var provider, locks := s.db.identities[x].external.provider,
                           {ExternalLock(s.db.identities[x].external), UserRow(actor)};
    var count, password := |Owned(s.db, actor)|, actor in s.db.passwords;
    assert Wanted(FindAgain(actor, provider)).None? && Wanted(CountMethods(actor, x)).None?;
    assert Wanted(FindPassword(actor, x, count)).None? && Wanted(Decide(actor, x, count, password)).None?;
    hide Leads, Reached, Follows, Wanted, Written, Rejected, Owned;
    var mid;
    actions, mid := Reads(s, begun, from, t, FindAgain(actor, provider), locks, CountMethods(actor, x));
    actions, mid := Reads(s, actions, mid, t, CountMethods(actor, x), locks, FindPassword(actor, x, count));
    actions, mid := Reads(s, actions, mid, t, FindPassword(actor, x, count), locks, Decide(actor, x, count, password));
    actions, mid := Reads(s, actions, mid, t, Decide(actor, x, count, password), locks, Commit(Detach(x, actor)));
    actions, u := Persists(s, actions, mid, t, Detach(x, actor), locks, user, row);
  }

  /** What UnlinkProvider does when it returns, the machine can do. */
  lemma UnlinkIsARun(s: State, t: TxId, actor: UserId, x: RowId, user: UserId, row: RowId)
    returns (actions: seq<Action>, u: State)
    requires DbOk(s.db) && Quiet(s, t, user, row) && InForce(s.db, actor)
    requires x in s.db.identities && s.db.identities[x].user == actor && CanLogIn(Without(s.db, x), actor)
    ensures Leads(s, actions, u) && u == s.(db := Without(s.db, x), drawn := s.drawn + {user, row})
  {
    LastMethod(s.db, actor, x);
    UnlinkFollows(s.db, actor, x);
    DetachIsWithout(s.db, x, actor, user, row);
    hide UnlinkPath, Leads, Reached, DbOk, CanLogIn, Without, Written;
    var mid;
    actions, mid := UnlinkLocks(s, t, actor, x);
    actions, u := UnlinkDecides(s, actions, mid, t, actor, x, user, row);
  }

  lemma DetachIsWithout(db: Db, x: RowId, actor: UserId, user: UserId, row: RowId)
    ensures Written(db, Detach(x, actor), user, row) == Without(db, x)
  {
  }

  /** The statements of an unlink that goes through, one after the other. */
  ghost predicate UnlinkPath(db: Db, actor: UserId, x: RowId) {
    && x in db.identities
    && var external, provider := db.identities[x].external, db.identities[x].external.provider;
       var count, password := |Owned(db, actor)|, actor in db.passwords;
    && Follows(db, FindLinked(actor, provider), Some(LockLinked(actor, external)))
    && Follows(db, LockLinked(actor, external), Some(Authorize(actor, provider)))
    && Follows(db, Authorize(actor, provider), Some(FindAgain(actor, provider)))
    && Follows(db, FindAgain(actor, provider), Some(CountMethods(actor, x)))
    && Follows(db, CountMethods(actor, x), Some(FindPassword(actor, x, count)))
    && Follows(db, FindPassword(actor, x, count), Some(Decide(actor, x, count, password)))
    && Follows(db, Decide(actor, x, count, password), Some(Commit(Detach(x, actor))))
    && !Rejected(db, Detach(x, actor))
  }

  lemma UnlinkFollows(db: Db, actor: UserId, x: RowId)
    requires DbOk(db) && InForce(db, actor) && x in db.identities && db.identities[x].user == actor
    requires |Owned(db, actor)| > 1 || actor in db.passwords
    ensures UnlinkPath(db, actor, x)
  {
    hide DbOk, Owned, Follows;
    UnlinkFinds(db, actor, x);
    UnlinkCounts(db, actor, x);
  }

  lemma UnlinkFinds(db: Db, actor: UserId, x: RowId)
    requires InForce(db, actor) && x in db.identities && db.identities[x].user == actor
    ensures var external, provider := db.identities[x].external, db.identities[x].external.provider;
            && Follows(db, FindLinked(actor, provider), Some(LockLinked(actor, external)))
            && Follows(db, LockLinked(actor, external), Some(Authorize(actor, provider)))
            && Follows(db, Authorize(actor, provider), Some(FindAgain(actor, provider)))
            && Follows(db, FindAgain(actor, provider), Some(CountMethods(actor, x)))
  {
    assert HasProvider(db, x, actor, db.identities[x].external.provider);
  }

  lemma UnlinkCounts(db: Db, actor: UserId, x: RowId)
    requires |Owned(db, actor)| > 1 || actor in db.passwords
    ensures var count, password := |Owned(db, actor)|, actor in db.passwords;
            && Follows(db, CountMethods(actor, x), Some(FindPassword(actor, x, count)))
            && Follows(db, FindPassword(actor, x, count), Some(Decide(actor, x, count, password)))
            && Follows(db, Decide(actor, x, count, password), Some(Commit(Detach(x, actor))))
  {
    hide Owned;
  }
}
