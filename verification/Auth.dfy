/** Login sessions that slide with use, up to an absolute end. */
module Auth {
  import opened Wrappers

  /** Nanoseconds; stored times come back unchanged (module TimeParse). */
  type Instant = int

  datatype Session = Session(
    userId: string, csrfHash: string, expiresAt: Instant, absoluteExpiresAt: Instant, lastSeenAt: Instant, createdAt: Instant)

  datatype User = User(normalizedUsername: string, passwordHash: string, lastLoginAt: Option<Instant>)

  type Sessions = map<string, Session>

  type Users = map<string, User>

  /** The two lifetimes and the touch interval. */
  datatype Times = Times(idle: int, absolute: int, touch: int)

  datatype Error = InvalidCredentials | InvalidSession | InvalidCurrentPassword | StorageFailed

  // ----- rows

  function NewSession(times: Times, userId: string, csrf: string, now: Instant): Session {
    Session(userId, csrf, now + times.idle, now + times.absolute, now, now)
  }

  predicate Usable(session: Session, now: Instant) {
    now < session.expiresAt && now < session.absoluteExpiresAt
  }

  predicate NeedsTouch(times: Times, session: Session, now: Instant) {
    now - session.lastSeenAt >= times.touch
  }

  function Touched(times: Times, session: Session, now: Instant): Session {
    if NeedsTouch(times, session, now) then
      session.(lastSeenAt := now, expiresAt := Min(now + times.idle, session.absoluteExpiresAt))
    else session
  }

  /** The sliding expiry. */
  predicate Sliding(times: Times, session: Session) {
    && session.expiresAt == Min(session.lastSeenAt + times.idle, session.absoluteExpiresAt)
    && session.absoluteExpiresAt == session.createdAt + times.absolute
    && session.createdAt <= session.lastSeenAt
  }

  function WithoutOthers(sessions: Sessions, userId: string, keep: string): Sessions {
    map hash | hash in sessions && (sessions[hash].userId != userId || hash == keep) :: sessions[hash]
  }

  /** Authenticate's decision, and the sessions it leaves: an expired session is deleted. */
  function Authenticated(times: Times, sessions: Sessions, users: Users, hash: string, now: Instant, stored: bool):
    (Sessions, Result<Session, Error>)
  {
    if hash !in sessions then (sessions, Err(InvalidSession))
    else
      var session := sessions[hash];
      if !Usable(session, now) then (sessions - {hash}, Err(InvalidSession))
      else if session.userId !in users then (sessions, Err(InvalidSession))
      else if !NeedsTouch(times, session, now) then (sessions, Ok(session))
      else if !stored then (sessions, Err(StorageFailed))
      else (sessions[hash := Touched(times, session, now)], Ok(Touched(times, session, now)))
  }

  /** UNIQUE (normalized_username). */
  ghost predicate NamesUnique(users: Users) {
    forall u, v :: u in users && v in users && users[u].normalizedUsername == users[v].normalizedUsername ==> u == v
  }

  // ----- the service

  class Service {
    var sessions: Sessions
    var users: Users
    const times: Times
    /** Argon2id: not modelled. */
    const verify: (string, string) -> bool

    constructor (times: Times, verify: (string, string) -> bool)
      ensures sessions == map[] && users == map[] && this.times == times && this.verify == verify
    {
      this.times, this.verify, sessions, users := times, verify, map[], map[];
    }

    method FindUser(name: string) returns (id: Option<string>)
      ensures id.Some? ==> id.value in users && users[id.value].normalizedUsername == name
      ensures id.None? ==> forall u :: u in users ==> users[u].normalizedUsername != name
    {
      var ids := users.Keys;
      while ids != {}
        invariant ids <= users.Keys
        invariant forall u :: u in users && u !in ids ==> users[u].normalizedUsername != name
        decreases ids
      {
        var u :| u in ids;
        if users[u].normalizedUsername == name {
          return Some(u);
        }
        ids := ids - {u};
      }
      return None;
    }

    /** `hash` is the new token's hash; the two flags say whether the inserts succeed. */
    method Login(name: string, password: string, hash: string, csrf: string, now: Instant, later: Instant,
                 created: bool, recorded: bool)
      returns (r: Result<Session, Error>)
      requires NamesUnique(users)
      modifies this
      ensures NamesUnique(users)
      ensures
        var known := exists u :: u in old(users) && old(users)[u].normalizedUsername == name && verify(old(users)[u].passwordHash, password);
        && (r.Ok? <==> known && created && recorded && hash !in old(sessions))
        && (r == Err(InvalidCredentials) <==> !known)
      ensures r.Ok? ==>
        && r.value.userId in old(users) && old(users)[r.value.userId].normalizedUsername == name
        && r.value == NewSession(times, r.value.userId, csrf, now)
        && r.value == Session(r.value.userId, csrf, now + times.idle, now + times.absolute, now, now)
        && sessions == old(sessions)[hash := r.value]
        && users == old(users)[r.value.userId := old(users)[r.value.userId].(lastLoginAt := Some(later))]
      ensures r.Err? ==> sessions == old(sessions) && users == old(users)
    {
      var found := FindUser(name);
      if found.None? || !verify(users[found.value].passwordHash, password) {
        return Err(InvalidCredentials);
      }
      var id := found.value;
      var session := Session(id, csrf, now + times.idle, now + times.absolute, now, now);
      if !created || hash in sessions {
        return Err(StorageFailed);
      }
      sessions := sessions[hash := session];
      if !recorded {
        sessions := sessions - {hash};
        assert sessions == old(sessions);
        return Err(StorageFailed);
      }
      users := users[id := users[id].(lastLoginAt := Some(later))];
      return Ok(session);
    }

    method Authenticate(hash: string, now: Instant, stored: bool) returns (r: Result<Session, Error>)
      modifies this`sessions
      ensures (sessions, r) == Authenticated(times, old(sessions), users, hash, now, stored)
    {
      if hash !in sessions {
        return Err(InvalidSession);
      }
      var session := sessions[hash];
      if now >= session.expiresAt || now >= session.absoluteExpiresAt {
        sessions := sessions - {hash};
        return Err(InvalidSession);
      }
      if session.userId !in users {
        return Err(InvalidSession);
      }
      if now - session.lastSeenAt >= times.touch {
        var expiresAt := now + times.idle;
        if expiresAt > session.absoluteExpiresAt {
          expiresAt := session.absoluteExpiresAt;
        }
        if !stored {
          return Err(StorageFailed);
        }
        session := session.(lastSeenAt := now);
        session := session.(expiresAt := expiresAt);
        sessions := sessions[hash := session];
      }
      return Ok(session);
    }

    method Logout(hash: string)
      modifies this`sessions
      ensures sessions == old(sessions) - {hash}
    {
      sessions := sessions - {hash};
    }

    /** Changing the password keeps this session and ends the user's other ones, in one
        transaction. */
    method ChangePassword(hash: string, password: string, encoded: string, now: Instant, stored: bool, committed: bool)
      returns (r: Result<(), Error>)
      modifies this
      ensures old(NamesUnique(users)) ==> NamesUnique(users)
      ensures
        var (after, authenticated) := Authenticated(times, old(sessions), old(users), hash, now, stored);
        && (authenticated.Err? ==> r == Err(authenticated.error) && sessions == after && users == old(users))
        && (authenticated.Ok? ==>
              var id := authenticated.value.userId;
              && (r.Ok? <==> committed && verify(old(users)[id].passwordHash, password))
              && sessions == (if r.Ok? then WithoutOthers(after, id, hash) else after)
              && users == (if r.Ok? then old(users)[id := old(users)[id].(passwordHash := encoded)] else old(users)))
    {
      var authenticated := Authenticate(hash, now, stored);
      if authenticated.Err? {
        return Err(authenticated.error);
      }
      var id := authenticated.value.userId;
      if !verify(users[id].passwordHash, password) {
        return Err(InvalidCurrentPassword);
      }
      if !committed {
        return Err(StorageFailed);
      }
      users := users[id := users[id].(passwordHash := encoded)];
      sessions := WithoutOthers(sessions, id, hash);
      return Ok(());
    }
  }
}
