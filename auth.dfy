/** Sessions of the web interface: a table from session token to the user
    and expiry time, the check of the admin credentials, and the decision
    whether a request needs a session. Times are whole seconds; the token of
    a new session and the current time are inputs. */
module Auth {
  import opened Wrappers
  import opened Strings

  /** One entry of the session table. */
  datatype Session = Session(username: string, createdAt: int, expiresAt: int)

  /** The paths open without a session. */
  const PublicPaths: seq<string> := ["/login", "/api/login", "/health", "/metrics", "/webhook"]

  /** A session cookie is there and not empty. */
  predicate Present(token: Option<string>)
  {
    token.Some? && token.value != ""
  }

  /** `create_session`: the table with the new entry. */
  function Created(sessions: map<string, Session>, username: string, token: string, now: int, timeout: int): (r: map<string, Session>)
    ensures token in r && r[token].username == username && r[token].expiresAt == now + timeout
    ensures forall t :: t != token ==> (t in r <==> t in sessions)
    ensures forall t :: t != token && t in sessions ==> r[t] == sessions[t]
  {
    sessions[token := Session(username, now, now + timeout)]
  }

  /** `validate_session`: the user and the table afterwards. An expired
      session (strictly after its expiry time) is removed; at its expiry
      time it is still valid. */
  function Validated(sessions: map<string, Session>, token: Option<string>, now: int): (Option<string>, map<string, Session>)
  {
    if !Present(token) || token.value !in sessions then (None, sessions)
    else if now > sessions[token.value].expiresAt then (None, sessions - {token.value})
    else (Some(sessions[token.value].username), sessions)
  }

  /** `destroy_session`. */
  function Destroyed(sessions: map<string, Session>, token: Option<string>): (r: map<string, Session>)
    ensures Present(token) ==> token.value !in r
    ensures forall t :: t in r <==> t in sessions && !(Present(token) && t == token.value)
    ensures forall t :: t in r ==> r[t] == sessions[t]
  {
    if Present(token) && token.value in sessions then sessions - {token.value} else sessions
  }

  /** Validation answers a user exactly for a present, known, unexpired
      token; it only ever removes that token, and only when it has expired. */
  lemma ValidatedCases(sessions: map<string, Session>, token: Option<string>, now: int)
    ensures var (user, after) := Validated(sessions, token, now);
      && (user.Some? <==> Present(token) && token.value in sessions && now <= sessions[token.value].expiresAt)
      && (user.Some? ==> user.value == sessions[token.value].username && after == sessions)
      && (user.None? && Present(token) && token.value in sessions ==> after == sessions - {token.value})
      && (!(Present(token) && token.value in sessions) ==> after == sessions)
      && (forall t :: t in after ==> t in sessions && after[t] == sessions[t])
  {
  }

  /** A new session is valid for its user from its creation up to and
      including its expiry time, and gone just after. */
  lemma CreateThenValidate(sessions: map<string, Session>, username: string, token: string, now: int, timeout: int, later: int)
    requires token != ""
    ensures var s := Created(sessions, username, token, now, timeout);
      && (later <= now + timeout ==> Validated(s, Some(token), later) == (Some(username), s))
      && (later > now + timeout ==> Validated(s, Some(token), later).0.None? && token !in Validated(s, Some(token), later).1)
  {
  }

  /** Checking the same token twice at the same time answers the same. */
  lemma ValidateIdempotent(sessions: map<string, Session>, token: Option<string>, now: int)
    ensures var (user, after) := Validated(sessions, token, now);
      Validated(after, token, now) == (user, after)
  {
  }

  /** A destroyed session no longer validates; other sessions are unaffected. */
  lemma DestroyThenValidate(sessions: map<string, Session>, token: Option<string>, other: Option<string>, now: int)
    ensures Validated(Destroyed(sessions, token), token, now).0.None?
    ensures Present(other) && Present(token) && other.value != token.value ==>
      Validated(Destroyed(sessions, token), other, now).0 == Validated(sessions, other, now).0
  {
  }

  /** `verify_credentials`: without credentials nobody is let in; with them,
      both the user name and the password must match exactly. */
  function VerifyCredentials(credentials: Option<(string, string)>, username: string, password: string): (r: bool)
    ensures r ==> credentials.Some?
    ensures credentials.Some? ==> (r <==> username == credentials.value.0 && password == credentials.value.1)
  {
    match credentials
    case None => false
    case Some((adminUser, adminPassword)) => username == adminUser && password == adminPassword
  }

  /** What `require_auth_if_enabled` does with a request. */
  datatype Decision = Open | Authenticated(username: string) | RedirectToLogin | Unauthorized

  /** The request needs no session: authentication is off, or the path is public. */
  predicate NoSessionNeeded(enabled: bool, path: string)
  {
    !enabled || path in PublicPaths
  }

  /** The decision for a request, given what validation answered. */
  function Decide(enabled: bool, path: string, accept: string, user: Option<string>): (d: Decision)
    ensures NoSessionNeeded(enabled, path) ==> d == Open
    ensures !NoSessionNeeded(enabled, path) && user.Some? && user.value != "" ==> d == Authenticated(user.value)
    ensures !NoSessionNeeded(enabled, path) && !(user.Some? && user.value != "") ==>
      d == (if Contains(accept, "text/html") then RedirectToLogin else Unauthorized)
  {
    if NoSessionNeeded(enabled, path) then Open
    else if user.None? || user.value == "" then (if Contains(accept, "text/html") then RedirectToLogin else Unauthorized)
    else Authenticated(user.value)
  }

  /** The five public paths are open whatever the session. */
  lemma PublicPathsOpen(enabled: bool, accept: string, user: Option<string>)
    ensures forall p :: p in ["/login", "/api/login", "/health", "/metrics", "/webhook"] ==> Decide(enabled, p, accept, user) == Open
  {
  }

  /** The in-memory session table. */
  class SessionTable {
    /** `auth_session_timeout`, in seconds. */
    const timeout: int
    var sessions: map<string, Session>

    constructor (timeout: int)
      ensures this.timeout == timeout && sessions == map[]
    {
      this.timeout := timeout;
      sessions := map[];
    }

    /** `create_session`, with the token drawn by the caller. */
    method CreateSession(username: string, token: string, now: int) returns (t: string)
      modifies this
      ensures t == token
      ensures sessions == Created(old(sessions), username, token, now, timeout)
    {
      sessions := sessions[token := Session(username, now, now + timeout)];
      t := token;
    }

    /** `validate_session`. */
    method ValidateSession(token: Option<string>, now: int) returns (user: Option<string>)
      modifies this
      ensures (user, sessions) == Validated(old(sessions), token, now)
    {
      if token.None? || token.value == "" {
        return None;
      }
      if token.value !in sessions {
        return None;
      }
      var session := sessions[token.value];
      if now > session.expiresAt {
        sessions := sessions - {token.value};
        return None;
      }
      user := Some(session.username);
    }

    /** `destroy_session`. */
    method DestroySession(token: Option<string>)
      modifies this
      ensures sessions == Destroyed(old(sessions), token)
    {
      if token.Some? && token.value != "" && token.value in sessions {
        sessions := sessions - {token.value};
      }
    }

    /** `require_auth_if_enabled`: the session is looked up (and an expired
        one dropped) only when the request needs one. */
    method RequireAuthIfEnabled(enabled: bool, path: string, accept: string, session: Option<string>, now: int) returns (d: Decision)
      modifies this
      ensures NoSessionNeeded(enabled, path) ==> d == Open && sessions == old(sessions)
      ensures !NoSessionNeeded(enabled, path) ==>
        var (user, after) := Validated(old(sessions), session, now);
        d == Decide(enabled, path, accept, user) && sessions == after
    {
      if !enabled {
        return Open;
      }
      if path in PublicPaths {
        return Open;
      }
      var user := ValidateSession(session, now);
      d := Decide(enabled, path, accept, user);
    }
  }
}
