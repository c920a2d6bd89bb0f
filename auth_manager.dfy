/**
  `AuthenticationManager`: the session state of the app. It is authenticated
  while a bearer token is stored under "authToken"; there is one token only,
  no refresh token and no expiry handling beyond the startup profile check.

  The API calls are parameters: each method receives the outcome the call
  produced. The startup `Task` that fetches the profile is modelled as a
  separate step, `FinishProfileFetch`, that runs some time after `init`.
*/
module AuthManager {
  import opened Wrappers
  import opened Defaults
  import opened ApiClient

  /** What the manager's methods act on: its two published fields and the stored defaults. */
  datatype Session = Session(isAuthenticated: bool, user: Option<User>, entries: map<string, string>)

  /** The state `init` leaves: authenticated on the mere presence of a token, the user still unknown. */
  function Initial(entries: map<string, string>): (s: Session)
    ensures s.entries == entries && s.user.None?
    ensures s.isAuthenticated <==> AuthTokenKey in entries
  {
    Session(AuthTokenKey in entries, None, entries)
  }

  /** `logout()`: the token removed, signed out, no user. */
  function LoggedOut(s: Session): (t: Session)
    ensures !t.isAuthenticated && t.user.None? && AuthTokenKey !in t.entries
  {
    Session(false, None, s.entries - {AuthTokenKey})
  }

  /** `login`/`register`: on success the token is saved and the user signed in; on failure nothing changes. */
  function AfterAuth(s: Session, outcome: Result<AuthResponse, Thrown>): (t: Session)
    ensures outcome.Failure? ==> t == s
    ensures outcome.Success? ==>
      && t.isAuthenticated && t.user == Some(outcome.value.user)
      && AuthTokenKey in t.entries && t.entries[AuthTokenKey] == outcome.value.token
  {
    if outcome.Failure? then s
    else Session(true, Some(outcome.value.user), s.entries[AuthTokenKey := outcome.value.token])
  }

  /** The end of the startup profile fetch: the user on success, `logout()` on any error. */
  function AfterProfileFetch(s: Session, outcome: Result<User, Thrown>): (t: Session)
    ensures outcome.Success? ==> t == s.(user := Some(outcome.value))
    ensures outcome.Failure? ==> t == LoggedOut(s)
  {
    if outcome.Success? then s.(user := Some(outcome.value)) else LoggedOut(s)
  }

  /** Logging out twice is logging out once. */
  lemma LogoutIdempotent(s: Session)
    ensures LoggedOut(LoggedOut(s)) == LoggedOut(s)
  {
  }

  /** Every step leaves every key other than "authToken" as it was. */
  lemma OnlyTokenKeyTouched(s: Session, auth: Result<AuthResponse, Thrown>, profile: Result<User, Thrown>, key: string)
    requires key != AuthTokenKey
    ensures (key in LoggedOut(s).entries <==> key in s.entries)
      && (key in s.entries ==> LoggedOut(s).entries[key] == s.entries[key])
    ensures (key in AfterAuth(s, auth).entries <==> key in s.entries)
      && (key in s.entries ==> AfterAuth(s, auth).entries[key] == s.entries[key])
    ensures (key in AfterProfileFetch(s, profile).entries <==> key in s.entries)
      && (key in s.entries ==> AfterProfileFetch(s, profile).entries[key] == s.entries[key])
  {
  }

  /**
    Whenever the manager says the session is authenticated, a token is
    stored; this holds after `init` and is kept by every step.
  */
  predicate Consistent(s: Session) {
    s.isAuthenticated ==> AuthTokenKey in s.entries
  }

  lemma ConsistencyKept(s: Session, auth: Result<AuthResponse, Thrown>, profile: Result<User, Thrown>)
    requires Consistent(s)
    ensures Consistent(LoggedOut(s)) && Consistent(AfterAuth(s, auth)) && Consistent(AfterProfileFetch(s, profile))
  {
  }

  /**
    After a successful login, every request made through `request` carries
    the new token; after a logout, none carries a token.
  */
  lemma TokenFollowsSession(s: Session, auth: AuthResponse, e: Endpoint, body: EncodedBody)
    requires body.None? || body.value.Success?
    ensures var t := AfterAuth(s, Success(auth));
      var r := EndpointRequest(e, body, t.entries, true);
      r.Success? && EndpointUnwrap(e) != NoPayload ==> r.value.headers[AuthorizationHeader] == "Bearer " + auth.token
    ensures AuthorizationHeader !in EndpointRequest(e, body, LoggedOut(s).entries, true).value.headers
  {
    AuthorizationHeaderRule(e, body, AfterAuth(s, Success(auth)).entries);
    AuthorizationHeaderRule(e, body, LoggedOut(s).entries);
  }

  class AuthenticationManager {
    var isAuthenticated: bool
    var user: Option<User>
    /** Whether the profile fetch that `init` launched has yet to finish. */
    var profileFetchPending: bool
    const defaults: UserDefaults

    function State(): Session
      reads this, defaults
    {
      Session(isAuthenticated, user, defaults.entries)
    }

    /** `init()`: signed in at once when a token is stored, with the profile fetch then still to come. */
    constructor (defaults: UserDefaults)
      ensures this.defaults == defaults
      ensures State() == Initial(defaults.entries)
      ensures profileFetchPending <==> AuthTokenKey in defaults.entries
    {
      this.defaults := defaults;
      isAuthenticated := false;
      user := None;
      profileFetchPending := false;
      new;
      var token := defaults.StringForKey(AuthTokenKey);
      if token.Some? {
        isAuthenticated := true;
        profileFetchPending := true;
      }
    }

    /** The body of the startup `Task`, run once the profile call has an outcome. */
    method FinishProfileFetch(outcome: Result<User, Thrown>)
      requires profileFetchPending
      modifies this, defaults
      ensures !profileFetchPending
      ensures State() == AfterProfileFetch(old(State()), outcome)
    {
      profileFetchPending := false;
      if outcome.Success? {
        user := Some(outcome.value);
      } else {
        Logout();
      }
    }

    /** `login(email:password:)`: the outcome of the login call decides; an error is rethrown. */
    method Login(outcome: Result<AuthResponse, Thrown>) returns (thrown: Option<Thrown>)
      modifies this, defaults
      ensures State() == AfterAuth(old(State()), outcome)
      ensures profileFetchPending == old(profileFetchPending)
      ensures thrown == if outcome.Failure? then Some(outcome.error) else None
    {
      if outcome.Failure? {
        return Some(outcome.error);
      }
      SaveToken(outcome.value.token);
      user := Some(outcome.value.user);
      isAuthenticated := true;
      thrown := None;
    }

    /** `register(...)`: the same effects as a login, with the register call's outcome. */
    method Register(outcome: Result<AuthResponse, Thrown>) returns (thrown: Option<Thrown>)
      modifies this, defaults
      ensures State() == AfterAuth(old(State()), outcome)
      ensures profileFetchPending == old(profileFetchPending)
      ensures thrown == if outcome.Failure? then Some(outcome.error) else None
    {
      if outcome.Failure? {
        return Some(outcome.error);
      }
      SaveToken(outcome.value.token);
      user := Some(outcome.value.user);
      isAuthenticated := true;
      thrown := None;
    }

    /** `logout()` */
    method Logout()
      modifies this, defaults
      ensures State() == LoggedOut(old(State()))
      ensures profileFetchPending == old(profileFetchPending)
    {
      defaults.RemoveObject(AuthTokenKey);
      isAuthenticated := false;
      user := None;
    }

    /** `saveToken(_:)` */
    method SaveToken(token: string)
      modifies defaults
      ensures defaults.entries == old(defaults.entries)[AuthTokenKey := token]
    {
      defaults.Set(token, AuthTokenKey);
    }
  }
}
