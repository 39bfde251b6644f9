/**
 * The calls of auth/oidc/service.py on their own, with sessions and the authorization rules of
 * auth/permissions.py.  Oidc interleaves what they do to users, passwords and identities.
 */
module Identities {
  import opened Basics
  import opened Oidc

  type SessionId = nat

  datatype Session = Session(user: UserId, authenticatedAt: Time, expiresAt: Time, revoked: bool)

  type Sessions = map<SessionId, Session>

  datatype Actor = Actor(user: UserId, session: SessionId)

  datatype Purpose = LoginAttempt | LinkAttempt(actor: Actor) | ReauthenticateAttempt(actor: Actor)

  /** A started handshake; link and reauthentication are bound to the actor who started them. */
  datatype Attempt = Attempt(provider: string, purpose: Purpose)

  /** Verified claims; address is the normalised one, when the provider gave one that normalises. */
  datatype Claims = Claims(external: External, address: Option<Email>, verified: bool, authTime: Option<int>)

  datatype Settings = Settings(sessionSeconds: nat, recentSeconds: nat)

  datatype Error =
    | ExternalLoginFailed
    | ProviderAlreadyLinked
    | FinalLoginMethod
    | AuthenticationRequired
    | ReauthenticationRequired

  /** The session is the actor's, unrevoked and unexpired. */
  predicate Live(sessions: Sessions, actor: Actor, now: Time) {
    && actor.session in sessions && sessions[actor.session].user == actor.user
    && !sessions[actor.session].revoked && now < sessions[actor.session].expiresAt
  }

  /** What authorize raises, with a limit on the age of the authentication when one is asked. */
  function Refusal(db: Db, sessions: Sessions, actor: Actor, recent: Option<nat>, now: Time): Option<Error> {
    if !MayAct(db, actor.user) || !Live(sessions, actor, now) then Some(AuthenticationRequired)
    else if recent.Some? && now - sessions[actor.session].authenticatedAt > recent.value * SECOND then
      Some(ReauthenticationRequired)
    else None
  }

  // ---- the outcome of a handshake ----------------------------------------------------

  /** The row that holds a subject, unique in a sound table. */
  ghost predicate OwnedBy(db: Db, external: External, user: UserId) {
    exists row :: Has(db, row, external) && db.identities[row].user == user
  }

  /**
   * What a handshake that returned did: nothing but touch the identity for a known subject, a
   * new account for an unknown one that logs in, a new identity for one that is linked.
   */
  ghost predicate Finished(db: Db, db': Db, claims: Claims, purpose: Purpose, user: UserId, row: RowId) {
    match purpose
    case LoginAttempt =>
      if Free(db, claims.external) then
        && claims.address.Some? && claims.verified && !MailTaken(db, claims.address.value)
        && db' == Written(db, OpenExternal(claims.address.value, claims.external), user, row)
      else db' == db
    case LinkAttempt(actor) =>
      && Free(db, claims.external) && (forall x :: !HasProvider(db, x, actor.user, claims.external.provider))
      && db' == Written(db, Attach(Identity(actor.user, claims.external)), user, row)
    case ReauthenticateAttempt(actor) =>
      OwnedBy(db, claims.external, actor.user) && claims.authTime.Some? && db' == db
  }

  /** Why a handshake raises, in the order of the checks. */
  ghost predicate Raises(db: Db, sessions: Sessions, attempt: Attempt, claims: Claims, actor: Option<Actor>,
                         settings: Settings, now: Time, later: Time, e: Error)
  {
    var bound := attempt.purpose.LoginAttempt? || actor == Some(attempt.purpose.actor);
    var known := !Free(db, claims.external);
    if claims.external.provider != attempt.provider || !bound then e == ExternalLoginFailed
    else
      match attempt.purpose
      case LoginAttempt =>
        && e == ExternalLoginFailed
        && if known then exists owner :: OwnedBy(db, claims.external, owner) && !MayAct(db, owner)
           else claims.address.None? || !claims.verified || MailTaken(db, claims.address.value)
      case ReauthenticateAttempt(who) =>
        var refusal := Refusal(db, sessions, who, None, now);
        if refusal.Some? then e == refusal.value
        else
          && e == ExternalLoginFailed
          && (!OwnedBy(db, claims.external, who.user) || claims.authTime.None? || !Live(sessions, who, later))
      case LinkAttempt(who) =>
        var refusal := Refusal(db, sessions, who, Some(settings.recentSeconds), now);
        if refusal.Some? then e == refusal.value
        else if known then
          e == if OwnedBy(db, claims.external, who.user) then ProviderAlreadyLinked else ExternalLoginFailed
        else e == ProviderAlreadyLinked && exists x :: HasProvider(db, x, who.user, claims.external.provider)
  }

  /** The tables behind one session, for a call that no other transaction interrupts. */
  class IdentityService {
    const settings: Settings
    var db: Db
    var sessions: Sessions

    constructor (db: Db, sessions: Sessions, settings: Settings)
      ensures this.db == db && this.sessions == sessions && this.settings == settings
    {
      this.db, this.sessions, this.settings := db, sessions, settings;
    }

    /**
     * user, row and session are fresh draws, now and later two clock readings; a login answers
     * the session it issued.
     */
    method FinishHandshake(attempt: Attempt, claims: Claims, actor: Option<Actor>, now: Time, later: Time, user: UserId,
                           row: RowId, session: SessionId)
      returns (r: Result<Option<SessionId>, Error>)
      requires DbOk(db) && user !in db.users && row !in db.identities && session !in sessions
      modifies this`db, this`sessions
      ensures DbOk(db)
      ensures r.Err? ==> db == old(db) && sessions == old(sessions)
      ensures r.Err? ==> Raises(old(db), old(sessions), attempt, claims, actor, settings, now, later, r.error)
      ensures r.Ok? ==> forall e :: !Raises(old(db), old(sessions), attempt, claims, actor, settings, now, later, e)
      ensures r.Ok? ==> Finished(old(db), db, claims, attempt.purpose, user, row)
      ensures r.Ok? && attempt.purpose.LoginAttempt? ==>
                && r.value == Some(session)
                && exists owner :: OwnedBy(db, claims.external, owner) && MayAct(db, owner)
                                   && sessions == old(sessions)[session := PassiveSession(owner, settings, now)]
      ensures r.Ok? && attempt.purpose.LinkAttempt? ==> r.value == None && sessions == old(sessions)
      ensures r.Ok? && attempt.purpose.ReauthenticateAttempt? ==>
                var id := attempt.purpose.actor.session;
                && r.value == None && id in old(sessions)
                && sessions == old(sessions)[id := old(sessions)[id].(authenticatedAt := later)]
    {
      if claims.external.provider != attempt.provider {
        return Err(ExternalLoginFailed);
      }
      var found := LoadIdentity(claims.external);
      if attempt.purpose.LoginAttempt? {
        r := FinishLogin(claims, found, now, user, row, session);
        return;
      }
      var who := attempt.purpose.actor;
      if actor != Some(who) {
        return Err(ExternalLoginFailed);
      }
      if attempt.purpose.ReauthenticateAttempt? {
        r := FinishReauthentication(claims, found, who, now, later);
        return;
      }
      r := FinishLink(claims.external, found, who, now, user, row);
    }

    method LoadIdentity(external: External) returns (found: Option<Loaded>)
      requires DbOk(db)
      ensures found.None? <==> Free(db, external)
      ensures found.Some? ==>
                Has(db, found.value.row, external) && db.identities[found.value.row].user == found.value.user
      ensures found.Some? ==> forall owner :: OwnedBy(db, external, owner) <==> owner == found.value.user
    {
      if x :| x in db.identities && Has(db, x, external) {
        assert !Free(db, external);
        return Some(Loaded(x, db.identities[x].user));
      }
      return None;
    }

    /** Login of a known owner, or of a new account, and the session it issues. */
    method FinishLogin(claims: Claims, found: Option<Loaded>, now: Time, user: UserId, row: RowId, session: SessionId)
      returns (r: Result<Option<SessionId>, Error>)
      requires DbOk(db) && user !in db.users && row !in db.identities && session !in sessions
      requires found.None? <==> Free(db, claims.external)
      requires found.Some? ==> forall owner :: OwnedBy(db, claims.external, owner) <==> owner == found.value.user
      modifies this`db, this`sessions
      ensures DbOk(db)
      ensures r.Err? ==> r == Err(ExternalLoginFailed) && db == old(db) && sessions == old(sessions)
      ensures found.Some? ==> db == old(db) && (r.Ok? <==> MayAct(db, found.value.user))
      ensures found.None? ==>
                && (r.Ok? <==> claims.address.Some? && claims.verified && !MailTaken(old(db), claims.address.value))
                && (r.Ok? ==>
                      && db == Written(old(db), OpenExternal(claims.address.value, claims.external), user, row)
                      && OwnedBy(db, claims.external, user) && MayAct(db, user))
      ensures r.Ok? ==>
                && r.value == Some(session)
                && sessions == old(sessions)[session := PassiveSession(if found.Some? then found.value.user else user,
                                                                       settings, now)]
    {
      var owner;
      if found.Some? {
        owner := found.value.user;
        if !MayAct(db, owner) {
          return Err(ExternalLoginFailed);
        }
      } else {
        if claims.address.None? || !claims.verified || MailTaken(db, claims.address.value) {
          return Err(ExternalLoginFailed);
        }
        owner := user;
        OpenOk(db, OpenExternal(claims.address.value, claims.external), user, row);
        db := db.(users := db.users[user := User(claims.address.value, true, true)]);
        db := db.(identities := db.identities[row := Identity(user, claims.external)]);
        assert Has(db, row, claims.external);
      }
      hide DbOk, Free, OwnedBy, MailTaken;
      var issued := Session(owner, now, now + settings.sessionSeconds * SECOND, false);
      issued := issued.(authenticatedAt := now - (settings.recentSeconds + 1) * SECOND);
      sessions := sessions[session := issued];
      return Ok(Some(session));
    }

    method FinishReauthentication(claims: Claims, found: Option<Loaded>, who: Actor, now: Time, later: Time)
      returns (r: Result<Option<SessionId>, Error>)
      requires found.None? <==> Free(db, claims.external)
      requires found.Some? ==> forall owner :: OwnedBy(db, claims.external, owner) <==> owner == found.value.user
      modifies this`sessions
      ensures var refusal := Refusal(db, old(sessions), who, None, now);
              r == if refusal.Some? then Err(refusal.value)
                   else if OwnedBy(db, claims.external, who.user) && claims.authTime.Some?
                           && Live(old(sessions), who, later)
                   then Ok(None) else Err(ExternalLoginFailed)
      ensures r.Err? ==> sessions == old(sessions)
      ensures r.Ok? ==>
                && who.session in old(sessions)
                && sessions == old(sessions)[who.session := old(sessions)[who.session].(authenticatedAt := later)]
    {
      var refusal := Refusal(db, sessions, who, None, now);
      if refusal.Some? {
        return Err(refusal.value);
      }
      assert found.None? ==> !OwnedBy(db, claims.external, who.user);
      if found.None? || found.value.user != who.user || claims.authTime.None? {
        return Err(ExternalLoginFailed);
      }
      if who.session !in sessions || sessions[who.session].revoked || sessions[who.session].expiresAt <= later {
        return Err(ExternalLoginFailed);
      }
      sessions := sessions[who.session := sessions[who.session].(authenticatedAt := later)];
      return Ok(None);
    }

    method FinishLink(external: External, found: Option<Loaded>, who: Actor, now: Time, user: UserId, row: RowId)
      returns (r: Result<Option<SessionId>, Error>)
      requires DbOk(db) && row !in db.identities
      requires found.None? <==> Free(db, external)
      requires found.Some? ==> forall owner :: OwnedBy(db, external, owner) <==> owner == found.value.user
      modifies this`db
      ensures DbOk(db) && (r.Err? ==> db == old(db)) && (r.Ok? ==> r.value == None)
      ensures var refusal := Refusal(old(db), sessions, who, Some(settings.recentSeconds), now);
              if refusal.Some? then r == Err(refusal.value)
              else if found.Some? then
                r == Err(if OwnedBy(old(db), external, who.user) then ProviderAlreadyLinked else ExternalLoginFailed)
              else if exists x :: HasProvider(old(db), x, who.user, external.provider) then
                r == Err(ProviderAlreadyLinked)
              else r.Ok? && db == Written(old(db), Attach(Identity(who.user, external)), user, row)
    {
      var refusal := Refusal(db, sessions, who, Some(settings.recentSeconds), now);
      if refusal.Some? {
        return Err(refusal.value);
      }
      if found.Some? {
        return Err(if found.value.user == who.user then ProviderAlreadyLinked else ExternalLoginFailed);
      }
      if exists x :: x in db.identities && HasProvider(db, x, who.user, external.provider) {
        return Err(ProviderAlreadyLinked);
      }
      AttachOk(db, Identity(who.user, external), row);
      db := db.(identities := db.identities[row := Identity(who.user, external)]);
      return Ok(None);
    }

    method UnlinkProvider(actor: Actor, provider: string, now: Time) returns (r: Result<RowId, Error>)
      requires DbOk(db)
      modifies this`db
      ensures DbOk(db)
      ensures db == if r.Ok? then Without(old(db), r.value) else old(db)
      ensures r.Ok? ==> HasProvider(old(db), r.value, actor.user, provider)
      ensures (forall x :: !HasProvider(old(db), x, actor.user, provider)) ==> r == Err(ExternalLoginFailed)
      ensures forall x: RowId | HasProvider(old(db), x, actor.user, provider) ::
                var refusal := Refusal(old(db), sessions, actor, Some(settings.recentSeconds), now);
                r == if refusal.Some? then Err(refusal.value)
                     else if !CanLogIn(Without(old(db), x), actor.user) then Err(FinalLoginMethod)
                     else Ok(x)
    {
      if !(exists x :: x in db.identities && HasProvider(db, x, actor.user, provider)) {
        return Err(ExternalLoginFailed);
      }
      var refusal := Refusal(db, sessions, actor, Some(settings.recentSeconds), now);
      if refusal.Some? {
        return Err(refusal.value);
      }
      hide Refusal;
      var existing :| existing in db.identities && HasProvider(db, existing, actor.user, provider);
      assert forall x | HasProvider(db, x, actor.user, provider) :: x == existing;
      var count, password := |Owned(db, actor.user)|, actor.user in db.passwords;
      LastMethod(db, actor.user, existing);
      if count <= 1 && !password {
        return Err(FinalLoginMethod);
      }
      DetachOk(db, existing, actor.user);
      db := db.(identities := db.identities - {existing});
      return Ok(existing);
    }
  }

  // ---- recent authentication -----------------------------------------------------------

  /** The session of a provider login, which counts as an authentication just too old to be recent. */
  function PassiveSession(owner: UserId, settings: Settings, now: Time): Session {
    Session(owner, now - (settings.recentSeconds + 1) * SECOND, now + settings.sessionSeconds * SECOND, false)
  }

  /**
   * A provider login authenticates, but never recently: its session passes authorize exactly
   * until it expires when no recency is asked, and at no time when it is.  So it can neither
   * link nor unlink.
   */
  lemma PassiveLoginIsNeverRecent(db: Db, sessions: Sessions, owner: UserId, id: SessionId, settings: Settings,
                                  loggedIn: Time, now: Time)
    requires MayAct(db, owner) && loggedIn <= now
    requires id in sessions && sessions[id] == PassiveSession(owner, settings, loggedIn)
    ensures Refusal(db, sessions, Actor(owner, id), None, now).None?
            <==> now < loggedIn + settings.sessionSeconds * SECOND
    ensures Refusal(db, sessions, Actor(owner, id), Some(settings.recentSeconds), now).Some?
  {
  }

  /**
   * Reauthenticating makes the same session recent for exactly the configured time, while it is
   * live, and no other session.
   */
  lemma ReauthenticationIsRecent(db: Db, sessions: Sessions, who: Actor, other: Actor, settings: Settings, at: Time,
                                 now: Time)
    requires who.session in sessions && at <= now && MayAct(db, who.user) && Live(sessions, who, now)
    ensures var later := sessions[who.session := sessions[who.session].(authenticatedAt := at)];
            && (Refusal(db, later, who, Some(settings.recentSeconds), now).None?
                <==> now <= at + settings.recentSeconds * SECOND)
            && (other.session != who.session ==>
                  Refusal(db, later, other, Some(settings.recentSeconds), now)
                  == Refusal(db, sessions, other, Some(settings.recentSeconds), now))
  {
  }
}
