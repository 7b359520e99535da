/**
 The session cache of the API server and the two handlers that drive it:
 ProcessAuth (sign-in) and GetCurrentUser (every later request).

 One memory cache holds, under string keys, the current token of each user (key: the
 user name), the claims of each token (key: the token) and the captcha flag.  Tokens and
 claims never expire: their lifespan is computed from a variable that is still zero
 when the package is initialised, and a zero lifespan means forever.  The flag lives
 300 seconds after its last write.
 */
module Session {
  import opened Wrappers
  import opened Lockout

  const CAPTCHA_KEY := "validate_captcha"
  const FAILED_TIMES_FOR_CAPTCHA: int := 3
  const CAPTCHA_SECONDS: int := 300

  datatype Payload = Payload(id: int, username: string)

  /**
   Claims(None) is the nil payload left behind by a token that did not verify; a flag keeps the time it was
   written.
   */
  datatype Value = Token(token: string) | Claims(payload: Option<Payload>) | Flag(createdTime: int)

  type Cache = map<string, Value>

  /** The users table: user names by id. */
  type Users = map<int, string>

  /** What the token server answers. */
  datatype Verification = Valid(payload: Option<Payload>) | Invalid | Unreachable

  /** Stopped is the nil dereference for a user id without a row. */
  datatype Response = Rejected | Accepted(username: string, token: string) | Stopped

  // ---------- GetCurrentUser ----------

  /** The token and payload a request goes on with, or None if it stops at once. */
  datatype Resolution = Resolution(token: string, payload: Option<Payload>, resigned: bool)

  function Resolve(c: Cache, token: string, v: Verification, signed: Option<string>): Option<Resolution> {
    match v
    case Valid(p) => Some(Resolution(token, p, false))
    case Unreachable => Some(Resolution(token, None, false))
    case Invalid =>
      if token in c && c[token].Claims? then
        if signed.Some? then Some(Resolution(signed.value, c[token].payload, true)) else None
      else Some(Resolution(token, None, false))
  }

  /** A session is displaced when the user's key holds another token. */
  predicate Displaced(c: Cache, name: string, r: Resolution) {
    && name in c && c[name].Token? && !r.resigned
    && c[name].token != "" && c[name].token != r.token
  }

  function Request(users: Users, c: Cache, token: string, v: Verification, signed: Option<string>): (Cache, Response) {
    match Resolve(c, token, v, signed)
    case None => (c, Rejected)
    case Some(r) =>
      var stored := c[r.token := Claims(r.payload)];
      if r.payload.None? then (stored, Rejected)
      else if r.payload.value.id !in users then (stored, Stopped)
      else
        var name := users[r.payload.value.id];
        if Displaced(stored, name, r) then (stored - {r.token}, Rejected)
        else if name in stored && stored[name].Token? then
          var renewed := stored[name := Token(r.token)];
          (if r.resigned then renewed - {stored[name].token} else renewed, Accepted(name, r.token))
        else (stored, Accepted(name, r.token))
  }

  // ---------- ProcessAuth ----------

  datatype Credentials = AuthFailure | WrongPassword | Verified(id: int, username: string)

  /** The captcha flag is looked up and written at times of its own. */
  datatype SignInAttempt = SignInAttempt(
    principal: string,
    clock: Readings,
    captchaRead: int,
    captchaPut: int,
    captchaOk: bool,
    credentials: Credentials,
    signed: Option<string>)

  predicate CaptchaDemanded(c: Cache, failedTimes: int, now: int) {
    || FAILED_TIMES_FOR_CAPTCHA <= failedTimes < DEFAULT_FAILED_TIMES
    || (CAPTCHA_KEY in c && c[CAPTCHA_KEY].Flag? && now - c[CAPTCHA_KEY].createdTime <= CAPTCHA_SECONDS * SECOND)
  }

  /** The attempt reaches the point where a token is asked for. */
  predicate ReachesSigning(s: Store, c: Cache, a: SignInAttempt) {
    var check := Checked(s, a.principal, a.clock);
    !check.blocked && (CaptchaDemanded(c, check.failedTimes, a.captchaRead) ==> a.captchaOk) && a.credentials.Verified?
  }

  /** The cache without the user's last session. */
  function WithoutSession(c: Cache, name: string): Cache {
    if name in c && c[name].Token? then c - {c[name].token, name} else c - {name}
  }

  function SignIn(s: Store, c: Cache, a: SignInAttempt): (Store, Cache, Response) {
    var s' := StoreAfterCheck(s, a.principal, a.clock);
    var check := Checked(s, a.principal, a.clock);
    var demanded := !check.blocked && CaptchaDemanded(c, check.failedTimes, a.captchaRead);
    var flagged := if demanded then c[CAPTCHA_KEY := Flag(a.captchaPut)] else c;
    if !ReachesSigning(s, c, a) then (s', flagged, Rejected)
    else
      var cleared := WithoutSession(c - {CAPTCHA_KEY}, a.credentials.username);
      match a.signed
      case None => (s', cleared, Rejected)
      case Some(token) =>
        var name := a.credentials.username;
        (s' - {a.principal},
         cleared[name := Token(token)][token := Claims(Some(Payload(a.credentials.id, name)))],
         Accepted(name, token))
  }

  class ApiServer {
    var memoryCache: Cache
    const temporaryStore: TemporaryStore
    const users: Users

    constructor (users: Users)
      ensures memoryCache == map[] && fresh(temporaryStore) && temporaryStore.items == map[] && this.users == users
    {
      var store := new TemporaryStore();
      temporaryStore := store;
      memoryCache := map[];
      this.users := users;
    }

    method GetCurrentUser(header: string, v: Verification, signed: Option<string>) returns (response: Response)
      modifies this
      ensures (memoryCache, response) == Request(users, old(memoryCache), header, v, signed)
    {
      var token := header;
      var hasResignedToken := false;
      var payload := None;
      match v {
        case Valid(p) => payload := p;
        case Unreachable =>
        case Invalid =>
          if token in memoryCache && memoryCache[token].Claims? {
            var lastPayload := memoryCache[token].payload;
            if signed.None? {
              return Rejected;
            }
            hasResignedToken := true;
            token := signed.value;
            payload := lastPayload;
          }
      }
      memoryCache := memoryCache[token := Claims(payload)];
      if payload.Some? {
        if payload.value.id !in users {
          return Stopped;
        }
        var username := users[payload.value.id];
        if username in memoryCache && memoryCache[username].Token? {
          var currentToken := memoryCache[username].token;
          if !hasResignedToken && currentToken != "" && currentToken != token {
            memoryCache := memoryCache - {token};
            return Rejected;
          }
          memoryCache := memoryCache[username := Token(token)];
          if hasResignedToken && currentToken in memoryCache {
            memoryCache := memoryCache - {currentToken};
          }
          assert currentToken !in memoryCache ==> memoryCache - {currentToken} == memoryCache;
        }
        return Accepted(username, token);
      }
      return Rejected;
    }

    /** The user's last token goes first, then the user's own key. */
    method RemoveLastSession(username: string)
      modifies this`memoryCache
      ensures memoryCache == WithoutSession(old(memoryCache), username)
    {
      if username in memoryCache {
        if memoryCache[username].Token? {
          memoryCache := memoryCache - {memoryCache[username].token};
        }
        memoryCache := memoryCache - {username};
      }
      assert username !in old(memoryCache) ==> old(memoryCache) - {username} == old(memoryCache);
    }

    /** The reset of the failure count never fails: the check that opens the attempt has left an entry. */
    method ProcessAuth(a: SignInAttempt) returns (response: Response)
      requires PlausibleFor(temporaryStore.items, a.principal, a.clock)
      modifies this, temporaryStore
      ensures (temporaryStore.items, memoryCache, response) ==
              SignIn(old(temporaryStore.items), old(memoryCache), a)
    {
      var authCheck := temporaryStore.CheckAuthFailedTimes(a.principal, a.clock);
      if authCheck.blocked {
        return Rejected;
      }
      var validateCaptcha := CAPTCHA_KEY in memoryCache && memoryCache[CAPTCHA_KEY].Flag? &&
        a.captchaRead - memoryCache[CAPTCHA_KEY].createdTime <= CAPTCHA_SECONDS * SECOND;
      if (FAILED_TIMES_FOR_CAPTCHA <= authCheck.failedTimes && authCheck.failedTimes < DEFAULT_FAILED_TIMES) ||
        validateCaptcha {
        memoryCache := memoryCache[CAPTCHA_KEY := Flag(a.captchaPut)];
        if !a.captchaOk {
          return Rejected;
        }
      }
      if !a.credentials.Verified? {
        return Rejected;
      }
      var username := a.credentials.username;
      memoryCache := memoryCache - {CAPTCHA_KEY};
      RemoveLastSession(username);
      assert memoryCache == WithoutSession(old(memoryCache) - {CAPTCHA_KEY}, username);
      if a.signed.None? {
        return Rejected;
      }
      var token := a.signed.value;
      memoryCache := memoryCache[username := Token(token)];
      memoryCache := memoryCache[token := Claims(Some(Payload(a.credentials.id, username)))];
      var ok := temporaryStore.ResetAuthFailedTimes(a.principal);
      if !ok {
        return Rejected;
      }
      return Accepted(username, token);
    }
  }
}
