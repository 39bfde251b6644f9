/** What the identity calls must decide and write, said in the columns of the tables. */
module IdentityAnswers {
  import opened Basics
  import opened Oidc
  import opened Identities

  /** An account is in force when it exists, is active and has a verified address. */
  predicate Account(db: Db, user: UserId) {
    user in db.users && db.users[user].active && db.users[user].verified
  }

  /** The session is the user's own, neither revoked nor expired. */
  predicate Session(sessions: Sessions, actor: Actor, now: Time) {
    && actor.session in sessions
    && var s := sessions[actor.session];
    s.user == actor.user && !s.revoked && now < s.expiresAt
  }

  /** A call is authorized for an account in force with a session, as recent as was asked. */
  lemma RefusalAnswers(db: Db, sessions: Sessions, actor: Actor, recent: Option<nat>, now: Time)
    ensures var refusal := Refusal(db, sessions, actor, recent, now);
            && (refusal == Some(AuthenticationRequired)
                <==> !Account(db, actor.user) || !Session(sessions, actor, now))
            && (refusal == Some(ReauthenticationRequired) <==>
                  && Account(db, actor.user) && Session(sessions, actor, now) && recent.Some?
                  && now > sessions[actor.session].authenticatedAt + recent.value * SECOND)
            && refusal in {None, Some(AuthenticationRequired), Some(ReauthenticationRequired)}
  {
  }

  /** The address belongs to no account. */
  predicate Unused(db: Db, email: Email) {
    forall u | u in db.users :: db.users[u].email != email
  }

  /** The subject belongs to no account. */
  predicate Unlinked(db: Db, external: External) {
    forall x | x in db.identities :: db.identities[x].external != external
  }

  lemma FreeIsUnlinked(db: Db, external: External)
    ensures Free(db, external) <==> Unlinked(db, external)
  {
    if Free(db, external) {
      forall x | x in db.identities ensures db.identities[x].external != external {
        assert !Has(db, x, external);
      }
    }
  }

  /**
   * A login of an unknown subject opens one account, in force, without a password, at the
   * verified free address, and gives it the subject; of a known one it writes nothing.  A link
   * adds the subject to the actor, who had none at the provider.  Reauthentication needs the
   * actor's own subject and writes nothing.
   */
  lemma FinishedAnswers(db: Db, db': Db, claims: Claims, purpose: Purpose, user: UserId, row: RowId)
    requires DbOk(db) && user !in db.users && row !in db.identities
    requires Finished(db, db', claims, purpose, user, row)
    ensures db'.passwords == db.passwords
    ensures match purpose
            case LoginAttempt =>
              if Unlinked(db, claims.external) then
                && claims.verified && claims.address.Some? && Unused(db, claims.address.value)
                && db'.users.Keys == db.users.Keys + {user} && (forall u | u in db.users :: db'.users[u] == db.users[u])
                && db'.users[user].email == claims.address.value && Account(db', user)
                && db'.identities == db.identities[row := Identity(user, claims.external)]
              else db' == db
            case LinkAttempt(actor) =>
              && Unlinked(db, claims.external)
              && (forall x | x in db.identities && db.identities[x].user == actor.user ::
                    db.identities[x].external.provider != claims.external.provider)
              && db'.users == db.users
              && db'.identities == db.identities[row := Identity(actor.user, claims.external)]
            case ReauthenticateAttempt(actor) =>
              && claims.authTime.Some? && db' == db
              && exists x :: x in db.identities && db.identities[x].external == claims.external
                             && db.identities[x].user == actor.user
  {
    FreeIsUnlinked(db, claims.external);
    hide DbOk, Free, Unlinked;
    match purpose
    case LoginAttempt =>
    case LinkAttempt(actor) =>
      forall x | x in db.identities && db.identities[x].user == actor.user
        ensures db.identities[x].external.provider != claims.external.provider
      {
        assert !HasProvider(db, x, actor.user, claims.external.provider);
      }
    case ReauthenticateAttempt(actor) =>
      var x :| Has(db, x, claims.external) && db.identities[x].user == actor.user;
      assert x in db.identities && db.identities[x].external == claims.external;
  }

  /**
   * A handshake of another provider or another actor fails.  A login fails for a known owner
   * not in force, and for an unknown subject without a verified free address; a
   * reauthentication for another's subject, without auth_time, or when the session ended
   * meanwhile; a link of a known subject, or beside another at the provider.
   */
  lemma RaisesAnswers(db: Db, sessions: Sessions, attempt: Attempt, claims: Claims, actor: Option<Actor>,
                      settings: Settings, now: Time, later: Time)
    requires DbOk(db)
    ensures (exists e :: Raises(db, sessions, attempt, claims, actor, settings, now, later, e)) <==>
              || claims.external.provider != attempt.provider
              || match attempt.purpose
                 case LoginAttempt =>
                   if Unlinked(db, claims.external) then
                     !claims.verified || claims.address.None? || !Unused(db, claims.address.value)
                   else
                     exists x :: x in db.identities && db.identities[x].external == claims.external
                                 && !Account(db, db.identities[x].user)
                 case ReauthenticateAttempt(who) =>
                   || actor != Some(who) || !Account(db, who.user) || !Session(sessions, who, now)
                   || !Session(sessions, who, later) || claims.authTime.None?
                   || !exists x :: x in db.identities && db.identities[x] == Identity(who.user, claims.external)
                 case LinkAttempt(who) =>
                   || actor != Some(who) || !Account(db, who.user) || !Session(sessions, who, now)
                   || now > sessions[who.session].authenticatedAt + settings.recentSeconds * SECOND
                   || !Unlinked(db, claims.external)
                   || exists x :: x in db.identities && db.identities[x].user == who.user
                                  && db.identities[x].external.provider == claims.external.provider
  {
    FreeIsUnlinked(db, claims.external);
    hide DbOk, Free, Unlinked;
    match attempt.purpose
    case LoginAttempt => LoginRaises(db, sessions, attempt, claims, actor, settings, now, later);
    case ReauthenticateAttempt(who) =>
      RefusalAnswers(db, sessions, who, None, now);
      ReauthenticationRaises(db, sessions, attempt, claims, actor, settings, now, later, who);
    case LinkAttempt(who) =>
      RefusalAnswers(db, sessions, who, Some(settings.recentSeconds), now);
      LinkRaises(db, sessions, attempt, claims, actor, settings, now, later, who);
  }

  lemma LoginRaises(db: Db, sessions: Sessions, attempt: Attempt, claims: Claims, actor: Option<Actor>,
                    settings: Settings, now: Time, later: Time)
    requires attempt.purpose.LoginAttempt? && (Free(db, claims.external) <==> Unlinked(db, claims.external))
    ensures (exists e :: Raises(db, sessions, attempt, claims, actor, settings, now, later, e)) <==>
              || claims.external.provider != attempt.provider
              || if Unlinked(db, claims.external) then
                   !claims.verified || claims.address.None? || !Unused(db, claims.address.value)
                 else
                   exists x :: x in db.identities && db.identities[x].external == claims.external
                               && !Account(db, db.identities[x].user)
  {
    hide Free, Unlinked;
    var e := ExternalLoginFailed;
    assert (exists e :: Raises(db, sessions, attempt, claims, actor, settings, now, later, e))
      <==> Raises(db, sessions, attempt, claims, actor, settings, now, later, e);
    if x :| x in db.identities && db.identities[x].external == claims.external && !Account(db, db.identities[x].user) {
      assert Has(db, x, claims.external) && OwnedBy(db, claims.external, db.identities[x].user);
    }
  }

  lemma ReauthenticationRaises(db: Db, sessions: Sessions, attempt: Attempt, claims: Claims, actor: Option<Actor>,
                               settings: Settings, now: Time, later: Time, who: Actor)
    requires attempt.purpose == ReauthenticateAttempt(who)
    ensures (exists e :: Raises(db, sessions, attempt, claims, actor, settings, now, later, e)) <==>
              || claims.external.provider != attempt.provider
              || actor != Some(who) || Refusal(db, sessions, who, None, now).Some?
              || !Session(sessions, who, later) || claims.authTime.None?
              || !exists x :: x in db.identities && db.identities[x] == Identity(who.user, claims.external)
  {
    hide Free, Refusal;
    if x :| x in db.identities && db.identities[x] == Identity(who.user, claims.external) {
      assert Has(db, x, claims.external);
    }
    if OwnedBy(db, claims.external, who.user) {
      var x :| Has(db, x, claims.external) && db.identities[x].user == who.user;
      assert db.identities[x] == Identity(who.user, claims.external);
    }
    var refusal := Refusal(db, sessions, who, None, now);
    var e := if claims.external.provider != attempt.provider || actor != Some(who) || refusal.None?
             then ExternalLoginFailed else refusal.value;
    assert (exists e :: Raises(db, sessions, attempt, claims, actor, settings, now, later, e))
      <==> Raises(db, sessions, attempt, claims, actor, settings, now, later, e);
  }

  lemma LinkRaises(db: Db, sessions: Sessions, attempt: Attempt, claims: Claims, actor: Option<Actor>,
                   settings: Settings, now: Time, later: Time, who: Actor)
    requires attempt.purpose == LinkAttempt(who) && (Free(db, claims.external) <==> Unlinked(db, claims.external))
    ensures (exists e :: Raises(db, sessions, attempt, claims, actor, settings, now, later, e)) <==>
              || claims.external.provider != attempt.provider
              || actor != Some(who) || Refusal(db, sessions, who, Some(settings.recentSeconds), now).Some?
              || !Unlinked(db, claims.external)
              || exists x :: x in db.identities && db.identities[x].user == who.user
                             && db.identities[x].external.provider == claims.external.provider
  {
    hide Free, Unlinked, Refusal, OwnedBy;
    if x :| x in db.identities && db.identities[x].user == who.user
            && db.identities[x].external.provider == claims.external.provider {
      assert HasProvider(db, x, who.user, claims.external.provider);
    }
    var refusal := Refusal(db, sessions, who, Some(settings.recentSeconds), now);
    var e := if claims.external.provider != attempt.provider || actor != Some(who) then ExternalLoginFailed
             else if refusal.Some? then refusal.value
             else if !Unlinked(db, claims.external) && !OwnedBy(db, claims.external, who.user) then ExternalLoginFailed
             else ProviderAlreadyLinked;
    assert (exists e :: Raises(db, sessions, attempt, claims, actor, settings, now, later, e))
      <==> Raises(db, sessions, attempt, claims, actor, settings, now, later, e);
  }
}
