/**
 Whole runs of sign-ins and requests against the session cache and the token server:
 which token is accepted, and exactly which steps keep the single-session rule.
 */
module SessionRuns {
  import opened Wrappers
  import opened Lockout
  import opened Session

  /** latest maps each user to the token issued to that user most recently; claims are
      the tokens the token server ever issued, expired the ones it no longer verifies. */
  datatype World = World(
    store: Store,
    cache: Cache,
    claims: map<string, Option<Payload>>,
    expired: set<string>,
    latest: map<string, string>)

  datatype Step =
    | DoSignIn(attempt: SignInAttempt)
    | DoRequest(token: string, unreachable: bool, signed: Option<string>)
    | Expire(stale: string)

  function Verify(w: World, token: string, unreachable: bool): Verification {
    if unreachable || token == "" then Unreachable
    else if token in w.claims && token !in w.expired then Valid(w.claims[token])
    else Invalid
  }

  /** The token a step makes the token server issue, with its claims. */
  function Issued(w: World, step: Step): Option<(string, Option<Payload>)> {
    match step
    case Expire(_) => None
    case DoSignIn(a) =>
      if ReachesSigning(w.store, w.cache, a) && a.signed.Some?
      then Some((a.signed.value, Some(Payload(a.credentials.id, a.credentials.username)))) else None
    case DoRequest(token, unreachable, signed) =>
      if Verify(w, token, unreachable).Invalid? && token in w.cache && w.cache[token].Claims? && signed.Some?
      then Some((signed.value, w.cache[token].payload)) else None
  }

  function Responds(users: Users, w: World, step: Step): (Store, Cache, Response) {
    match step
    case Expire(_) => (w.store, w.cache, Rejected)
    case DoSignIn(a) => SignIn(w.store, w.cache, a)
    case DoRequest(token, unreachable, signed) =>
      var (cache, response) := Request(users, w.cache, token, Verify(w, token, unreachable), signed);
      (w.store, cache, response)
  }

  function Next(users: Users, w: World, step: Step): World {
    var (store, cache, _) := Responds(users, w, step);
    var issued := Issued(w, step);
    World(store, cache,
          if issued.Some? then w.claims[issued.value.0 := issued.value.1] else w.claims,
          if step.Expire? then w.expired + {step.stale} else w.expired,
          if issued.Some? && issued.value.1.Some?
          then w.latest[issued.value.1.value.username := issued.value.0] else w.latest)
  }

  // ---------- What a run may contain ----------

  ghost predicate Name(users: Users, k: string) {
    exists id :: id in users && users[id] == k
  }

  /** User names are non-empty and differ from the captcha key. */
  ghost predicate GoodUsers(users: Users) {
    forall id :: id in users ==> users[id] != "" && users[id] != CAPTCHA_KEY
  }

  /** A newly signed token is unlike every key seen so far; credentials come from the users table. */
  ghost predicate Allowed(users: Users, w: World, step: Step) {
    && (Issued(w, step).Some? ==>
          var token := Issued(w, step).value.0;
          && token !in w.claims && token !in w.cache && !Name(users, token) && token != "" && token != CAPTCHA_KEY)
    && (step.DoSignIn? && step.attempt.credentials.Verified? ==>
          var c := step.attempt.credentials;
          c.id in users && users[c.id] == c.username)
  }

  // ---------- The single-session rule ----------

  ghost predicate GoodPayload(users: Users, p: Payload) {
    p.id in users && users[p.id] == p.username
  }

  /** The user's key holds the token issued to the user last. */
  ghost predicate Held(users: Users, w: World, u: string)
    requires u in w.latest
  {
    && Name(users, u) && u in w.cache && w.cache[u] == Token(w.latest[u])
    && w.latest[u] in w.claims && w.claims[w.latest[u]].Some? && w.claims[w.latest[u]].value.username == u
  }

  /** Every user's key holds the token issued to the user last. */
  ghost predicate LatestHeld(users: Users, w: World) {
    forall u :: u in w.latest ==> Held(users, w, u)
  }

  /** A user's claims are cached under no token but the latest. */
  ghost predicate ClaimsOnlyLatest(w: World) {
    forall k :: k in w.cache && w.cache[k].Claims? && w.cache[k].payload.Some? ==>
      && k in w.claims && w.claims[k] == w.cache[k].payload
      && w.cache[k].payload.value.username in w.latest && w.latest[w.cache[k].payload.value.username] == k
  }

  ghost predicate TokensAreSessions(w: World) {
    forall k :: k in w.cache && w.cache[k].Token? ==> k in w.latest
  }

  ghost predicate IssuedSound(users: Users, w: World) {
    forall t :: t in w.claims ==>
      && t != "" && t != CAPTCHA_KEY && !Name(users, t)
      && (w.claims[t].Some? ==> GoodPayload(users, w.claims[t].value) && w.claims[t].value.username in w.latest)
  }

  ghost predicate SingleSession(users: Users, w: World) {
    LatestHeld(users, w) && ClaimsOnlyLatest(w) && TokensAreSessions(w) && IssuedSound(users, w)
  }

  /** A step that disturbs the key of a user who has a session: a request whose token is
      that user's name, or a sign-in that displaces the session and then gets no token. */
  ghost predicate Disturbs(w: World, step: Step) {
    match step
    case Expire(_) => false
    case DoRequest(token, _, _) => token in w.latest
    case DoSignIn(a) => ReachesSigning(w.store, w.cache, a) && a.signed.None? && a.credentials.username in w.latest
  }

  /** The single-session rule survives a step if and only if the step does not disturb a user's key. */
  lemma {:induction false} SingleSessionKept(users: Users, w: World, step: Step)
    requires GoodUsers(users) && SingleSession(users, w) && Allowed(users, w, step)
    ensures SingleSession(users, Next(users, w, step)) <==> !Disturbs(w, step)
  {
    match step
    case Expire(_) =>
    case DoSignIn(a) =>
      if ReachesSigning(w.store, w.cache, a) {
        var c := a.credentials;
        assert Name(users, c.username);
        SignInKeeps(users, w, a);
      } else {
        FailedSignInKeeps(users, w, a);
      }
    case DoRequest(token, unreachable, signed) =>
      RequestKeeps(users, w, token, unreachable, signed);
  }

  lemma {:induction false} FailedSignInKeeps(users: Users, w: World, a: SignInAttempt)
    requires GoodUsers(users) && SingleSession(users, w) && Allowed(users, w, DoSignIn(a))
    requires !ReachesSigning(w.store, w.cache, a)
    ensures SingleSession(users, Next(users, w, DoSignIn(a)))
  {
  }

  /** A change that issues nothing, leaves the users' keys alone and caches no foreign claims. */
  ghost predicate Quiet(w: World, w': World) {
    && w'.latest == w.latest && w'.claims == w.claims
    && (forall k :: k in w.latest ==> k in w'.cache && k in w.cache && w'.cache[k] == w.cache[k])
    && (forall k :: k in w'.cache && w'.cache[k].Token? ==> k in w.latest)
    && (forall k :: k in w'.cache && w'.cache[k].Claims? && w'.cache[k].payload.Some? ==>
          (k in w.cache && w.cache[k] == w'.cache[k]) ||
          (k in w.claims && w.claims[k] == w'.cache[k].payload && LatestOf(w, w'.cache[k].payload.value.username, k)))
  }

  ghost predicate LatestOf(w: World, u: string, token: string) {
    u in w.latest && w.latest[u] == token
  }

  lemma {:induction false} QuietKeeps(users: Users, w: World, w': World)
    requires SingleSession(users, w) && Quiet(w, w')
    ensures SingleSession(users, w')
  {
  }

  /** A change that gives user p.username the fresh token, drops the one before it and touches no other session. */
  ghost predicate Reissue(w: World, w': World, p: Payload, token: string) {
    && w'.latest == w.latest[p.username := token] && w'.claims == w.claims[token := Some(p)]
    && token !in w.claims && token !in w.latest
    && token in w'.cache && w'.cache[token] == Claims(Some(p))
    && p.username in w'.cache && w'.cache[p.username] == Token(token)
    && (p.username in w.latest ==> w.latest[p.username] !in w'.cache)
    && (forall k :: k in w.latest && k != p.username ==> k in w'.cache && k in w.cache && w'.cache[k] == w.cache[k])
    && (forall k :: k in w'.cache && k != token && k != p.username && !w'.cache[k].Flag? ==>
          k in w.cache && w'.cache[k] == w.cache[k])
  }

  lemma {:induction false} ReissueKeepsOther(users: Users, w: World, w': World, p: Payload, token: string, u: string)
    requires u in w.latest && Held(users, w, u) && Reissue(w, w', p, token) && u != p.username
    ensures u in w'.latest && Held(users, w', u)
  {
    assert w'.latest[u] == w.latest[u] != token;
  }

  lemma {:induction false} ReissueKeepsHeld(users: Users, w: World, w': World, p: Payload, token: string)
    requires LatestHeld(users, w) && Reissue(w, w', p, token) && Name(users, p.username)
    ensures LatestHeld(users, w')
  {
    forall u | u in w'.latest
      ensures Held(users, w', u)
    {
      if u != p.username {
        assert u in w.latest && Held(users, w, u);
        ReissueKeepsOther(users, w, w', p, token, u);
      }
    }
  }

  lemma {:induction false} ReissueKeepsClaims(users: Users, w: World, w': World, p: Payload, token: string)
    requires SingleSession(users, w) && Reissue(w, w', p, token)
    ensures ClaimsOnlyLatest(w') && TokensAreSessions(w')
  {
    forall k | k in w'.cache && w'.cache[k].Claims? && w'.cache[k].payload.Some?
      ensures k in w'.claims && w'.claims[k] == w'.cache[k].payload
      ensures LatestOf(w', w'.cache[k].payload.value.username, k)
    {
      if k != token {
        assert k in w.cache && w.cache[k] == w'.cache[k];
      }
    }
  }

  lemma {:induction false} ReissueKeepsIssued(users: Users, w: World, w': World, p: Payload, token: string)
    requires SingleSession(users, w) && Reissue(w, w', p, token)
    requires GoodPayload(users, p) && token != "" && token != CAPTCHA_KEY && !Name(users, token)
    ensures IssuedSound(users, w')
  {
  }

  lemma {:induction false} ReissueKeeps(users: Users, w: World, w': World, p: Payload, token: string)
    requires SingleSession(users, w) && Reissue(w, w', p, token)
    requires GoodPayload(users, p) && token != "" && token != CAPTCHA_KEY && !Name(users, token)
    ensures SingleSession(users, w')
  {
    assert Name(users, p.username);
    ReissueKeepsHeld(users, w, w', p, token);
    ReissueKeepsClaims(users, w, w', p, token);
    ReissueKeepsIssued(users, w, w', p, token);
  }

  /** The cache after a token has been issued: some keys gone, then the two new entries. */
  function WithSession(c: Cache, gone: set<string>, p: Payload, token: string): Cache {
    (c - gone)[p.username := Token(token)][token := Claims(Some(p))]
  }

  lemma {:induction false} ReissueFromCache(w: World, w': World, gone: set<string>, p: Payload, token: string)
    requires w'.latest == w.latest[p.username := token] && w'.claims == w.claims[token := Some(p)]
    requires w'.cache == WithSession(w.cache, gone, p, token)
    requires token !in w.claims && token !in w.latest && token != p.username
    requires p.username in w.latest ==> w.latest[p.username] in gone && w.latest[p.username] !in {p.username, token}
    requires w.latest.Keys <= w.cache.Keys
    requires forall k :: k in w.latest && k != p.username ==> k !in gone
    ensures Reissue(w, w', p, token)
  {
  }

  /** The keys a sign-in of the user removes. */
  function GoneBySignIn(w: World, name: string): set<string> {
    if name in w.latest then {CAPTCHA_KEY, w.latest[name], name} else {CAPTCHA_KEY, name}
  }

  lemma {:induction false} SessionKey(users: Users, w: World, name: string)
    requires SingleSession(users, w) && Name(users, name) && GoodUsers(users)
    ensures name != CAPTCHA_KEY && w.latest.Keys <= w.cache.Keys && CAPTCHA_KEY !in w.latest
    ensures name in w.latest ==> w.latest[name] != CAPTCHA_KEY && w.latest[name] != name && w.latest[name] !in w.latest
    ensures name in w.latest <==> name in w.cache && w.cache[name].Token?
    ensures name in w.latest ==> w.cache[name] == Token(w.latest[name])
  {
    forall k | k in w.latest
      ensures k in w.cache && k != CAPTCHA_KEY && Name(users, k)
    {
    }
    if name in w.latest {
      assert w.latest[name] in w.claims && !Name(users, w.latest[name]);
    }
  }

  /** What a sign-in that gets as far as signing leaves in the cache. */
  lemma {:induction false} SignInCache(w: World, a: SignInAttempt)
    requires ReachesSigning(w.store, w.cache, a) && a.credentials.username != CAPTCHA_KEY
    requires var name := a.credentials.username;
             && (name in w.latest <==> name in w.cache && w.cache[name].Token?)
             && (name in w.latest ==> w.cache[name] == Token(w.latest[name]))
    ensures var name := a.credentials.username;
            Responds(map[], w, DoSignIn(a)).1 ==
            if a.signed.None? then w.cache - GoneBySignIn(w, name)
            else WithSession(w.cache, GoneBySignIn(w, name), Payload(a.credentials.id, name), a.signed.value)
  {
    var name := a.credentials.username;
    assert WithoutSession(w.cache - {CAPTCHA_KEY}, name) == w.cache - GoneBySignIn(w, name);
  }

  /** A sign-in without a token only removes keys. */
  lemma {:induction false} UnsignedKeeps(users: Users, w: World, w': World, name: string)
    requires SingleSession(users, w) && w'.latest == w.latest && w'.claims == w.claims
    requires w'.cache == w.cache - GoneBySignIn(w, name) && w.latest.Keys <= w.cache.Keys && CAPTCHA_KEY !in w.latest
    ensures SingleSession(users, w') <==> name !in w.latest
  {
    assert name !in w'.cache;
    if name !in w.latest {
      assert Quiet(w, w');
      QuietKeeps(users, w, w');
    }
  }

  lemma {:induction false} SignInKeeps(users: Users, w: World, a: SignInAttempt)
    requires GoodUsers(users) && SingleSession(users, w) && Allowed(users, w, DoSignIn(a))
    requires ReachesSigning(w.store, w.cache, a) && Name(users, a.credentials.username)
    ensures SingleSession(users, Next(users, w, DoSignIn(a))) <==> !Disturbs(w, DoSignIn(a))
  {
    var name := a.credentials.username;
    var w' := Next(users, w, DoSignIn(a));
    SessionKey(users, w, name);
    SignInCache(w, a);
    if a.signed.None? {
      UnsignedKeeps(users, w, w', name);
    } else {
      var p := Payload(a.credentials.id, name);
      assert w'.latest == w.latest[name := a.signed.value] && w'.claims == w.claims[a.signed.value := Some(p)];
      ReissueFromCache(w, w', GoneBySignIn(w, name), p, a.signed.value);
      ReissueKeeps(users, w, w', p, a.signed.value);
    }
  }

  /** What a request that makes no token be issued leaves in the cache and answers. */
  lemma {:induction false} PlainRequest(users: Users, w: World, token: string, unreachable: bool,
                                        signed: Option<string>)
    requires SingleSession(users, w) && token !in w.latest
    requires Issued(w, DoRequest(token, unreachable, signed)).None?
    ensures var v := Verify(w, token, unreachable);
            var (_, cache, response) := Responds(users, w, DoRequest(token, unreachable, signed));
            if v.Valid? && v.payload.Some? then
              var u := v.payload.value.username;
              if w.latest[u] == token
              then cache == w.cache[token := Claims(v.payload)][u := Token(token)] && response == Accepted(u, token)
              else cache == w.cache[token := Claims(v.payload)] - {token} && response == Rejected
            else (cache == w.cache || cache == w.cache[token := Claims(None)]) && response == Rejected
  {
    var v := Verify(w, token, unreachable);
    if v.Valid? && v.payload.Some? {
      var p := v.payload.value;
      assert w.claims[token] == v.payload && GoodPayload(users, p) && p.username in w.latest;
      assert Name(users, p.username) && p.username != token;
    }
  }

  lemma {:induction false} QuietRequest(users: Users, w: World, token: string, unreachable: bool,
                                        signed: Option<string>)
    requires SingleSession(users, w) && token !in w.latest
    requires Issued(w, DoRequest(token, unreachable, signed)).None?
    ensures Quiet(w, Next(users, w, DoRequest(token, unreachable, signed)))
  {
    PlainRequest(users, w, token, unreachable, signed);
    var v := Verify(w, token, unreachable);
    var w' := Next(users, w, DoRequest(token, unreachable, signed));
    assert w'.latest == w.latest && w'.claims == w.claims;
    if v.Valid? && v.payload.Some? {
      var u := v.payload.value.username;
      assert w.claims[token] == v.payload && u in w.latest;
      assert Held(users, w, u) && forall k :: k in w.latest ==> Held(users, w, k);
      if w.latest[u] == token {
        RenewedQuiet(w, w', u, token);
      } else {
        DroppedQuiet(w, w', token);
      }
    } else {
      NothingQuiet(users, w, w', token);
    }
  }

  /** Caching the claims of a token for which its user's key stands. */
  lemma {:induction false} RenewedQuiet(w: World, w': World, u: string, token: string)
    requires ClaimsOnlyLatest(w) && TokensAreSessions(w) && w.latest.Keys <= w.cache.Keys && token !in w.latest
    requires LatestOf(w, u, token) && w.cache[u] == Token(token)
    requires w'.latest == w.latest && w'.claims == w.claims
    requires token in w.claims && w.claims[token].Some? && w.claims[token].value.username == u
    requires w'.cache == w.cache[token := Claims(w.claims[token])][u := Token(token)]
    ensures Quiet(w, w')
  {
  }

  /** Dropping any other token. */
  lemma {:induction false} DroppedQuiet(w: World, w': World, token: string)
    requires ClaimsOnlyLatest(w) && TokensAreSessions(w) && w.latest.Keys <= w.cache.Keys && token !in w.latest
    requires w'.latest == w.latest && w'.claims == w.claims
    requires token in w.claims && w'.cache == w.cache[token := Claims(w.claims[token])] - {token}
    ensures Quiet(w, w')
  {
  }

  lemma {:induction false} NothingQuiet(users: Users, w: World, w': World, token: string)
    requires SingleSession(users, w) && token !in w.latest
    requires w'.latest == w.latest && w'.claims == w.claims
    requires w'.cache == w.cache || w'.cache == w.cache[token := Claims(None)]
    ensures Quiet(w, w')
  {
  }

  /** What a request with an expired token and cached claims leaves in the cache and answers. */
  lemma {:induction false} ResigningRequest(users: Users, w: World, token: string, unreachable: bool,
                                            signed: Option<string>)
    requires SingleSession(users, w) && Allowed(users, w, DoRequest(token, unreachable, signed))
    requires Issued(w, DoRequest(token, unreachable, signed)).Some? && w.cache[token].payload.Some?
    ensures var p := w.cache[token].payload.value;
            var (_, cache, response) := Responds(users, w, DoRequest(token, unreachable, signed));
            && GoodPayload(users, p) && LatestOf(w, p.username, token)
            && cache == WithSession(w.cache, {token}, p, signed.value)
            && response == Accepted(p.username, signed.value)
  {
    var p := w.cache[token].payload.value;
    assert GoodPayload(users, p) && w.latest[p.username] == token;
    assert w.cache[p.username] == Token(token) && Name(users, p.username);
    assert w.cache[signed.value := Claims(Some(p))][p.username := Token(signed.value)] - {token} ==
           WithSession(w.cache, {token}, p, signed.value);
  }

  lemma {:induction false} RequestKeeps(users: Users, w: World, token: string, unreachable: bool,
                                        signed: Option<string>)
    requires GoodUsers(users) && SingleSession(users, w) && Allowed(users, w, DoRequest(token, unreachable, signed))
    ensures SingleSession(users, Next(users, w, DoRequest(token, unreachable, signed)))
            <==> !Disturbs(w, DoRequest(token, unreachable, signed))
  {
    var step := DoRequest(token, unreachable, signed);
    var w' := Next(users, w, step);
    if token in w.latest {
      NameRequest(users, w, token, unreachable, signed);
    } else if Issued(w, step).None? {
      QuietRequest(users, w, token, unreachable, signed);
      QuietKeeps(users, w, w');
    } else if w.cache[token].payload.Some? {
      ResigningRequest(users, w, token, unreachable, signed);
      var p := w.cache[token].payload.value;
      assert Name(users, p.username);
      SessionKey(users, w, p.username);
      ReissueFromCache(w, w', {token}, p, signed.value);
      ReissueKeeps(users, w, w', p, signed.value);
    } else {
      BlankIssueKeeps(users, w, w', signed.value);
    }
  }

  /** A request whose token is the name of a user with a session overwrites that user's key. */
  lemma {:induction false} NameRequest(users: Users, w: World, name: string, unreachable: bool, signed: Option<string>)
    requires SingleSession(users, w) && name in w.latest
    ensures var w' := Next(users, w, DoRequest(name, unreachable, signed));
            name in w'.cache && w'.cache[name] == Claims(None) && w'.latest == w.latest
  {
    assert Name(users, name);
  }

  /** Re-signing a nil payload issues a token that belongs to nobody. */
  lemma {:induction false} BlankIssueKeeps(users: Users, w: World, w': World, token: string)
    requires SingleSession(users, w) && token !in w.claims && token !in w.cache
    requires token != "" && token != CAPTCHA_KEY && !Name(users, token)
    requires w'.latest == w.latest && w'.claims == w.claims[token := None] && w'.cache == w.cache[token := Claims(None)]
    ensures SingleSession(users, w')
  {
  }

  // ---------- Which token is accepted ----------

  ghost predicate Latest(w: World, token: string) {
    exists u :: LatestOf(w, u, token)
  }

  /** The cache still holds the claims of the token, so that it can be signed again. */
  ghost predicate Renewable(w: World, token: string) {
    HoldsClaims(w.cache, token)
  }

  ghost predicate HoldsClaims(c: Cache, token: string) {
    token in c && c[token].Claims? && c[token].payload.Some?
  }

  /** In a single-session world a request is accepted if and only if the token server answers, its
      token is the one issued last to some user, and, once expired, it can be signed again.
      The answer names that user and the token that is the user's latest from then on. */
  lemma {:induction false} AcceptedIffLatest(users: Users, w: World, token: string, unreachable: bool,
                                             signed: Option<string>)
    requires GoodUsers(users) && SingleSession(users, w) && Allowed(users, w, DoRequest(token, unreachable, signed))
    ensures var step := DoRequest(token, unreachable, signed);
            var response := Responds(users, w, step).2;
            && (response.Accepted? <==>
                  !unreachable && Latest(w, token) && (token in w.expired ==> Renewable(w, token) && signed.Some?))
            && (response.Accepted? ==>
                  && LatestOf(w, response.username, token)
                  && LatestOf(Next(users, w, step), response.username, response.token))
  {
    var step := DoRequest(token, unreachable, signed);
    var response := Responds(users, w, step).2;
    if token in w.latest {
      assert Name(users, token);
      assert !Latest(w, token);
      assert Responds(users, w, step).1[token] == Claims(None);
    } else if Issued(w, step).None? {
      PlainRequest(users, w, token, unreachable, signed);
      if response.Accepted? {
        assert LatestOf(w, response.username, token);
      }
    } else if w.cache[token].payload.Some? {
      ResigningRequest(users, w, token, unreachable, signed);
      assert LatestOf(w, w.cache[token].payload.value.username, token);
    }
  }

  ghost predicate BackedIn(latest: map<string, string>, c: Cache) {
    forall u :: u in latest ==> HoldsClaims(c, latest[u])
  }

  /** The claims of every latest token are cached. */
  ghost predicate Backed(w: World) {
    BackedIn(w.latest, w.cache)
  }

  /** Only a request whose token is the latest of a user, made while the token server
      does not answer, loses the cached claims of a latest token. */
  lemma {:induction false} BackedKept(users: Users, w: World, step: Step)
    requires GoodUsers(users) && SingleSession(users, w) && Backed(w) && Allowed(users, w, step) && !Disturbs(w, step)
    ensures Backed(Next(users, w, step)) <==> !(step.DoRequest? && step.unreachable && Latest(w, step.token))
  {
    match step
    case Expire(_) =>
    case DoSignIn(a) => SignInKeepsBacked(users, w, a);
    case DoRequest(token, unreachable, signed) => RequestKeepsBacked(users, w, token, unreachable, signed);
  }

  /** Two users never share a token, and no token is a user name or the captcha key. */
  lemma {:induction false} OthersToken(users: Users, w: World, u: string, name: string)
    requires SingleSession(users, w) && Name(users, name) && u in w.latest
    ensures w.latest[u] != name && w.latest[u] != CAPTCHA_KEY
    ensures name in w.latest && u != name ==> w.latest[u] != w.latest[name]
  {
    assert Held(users, w, u);
    assert w.latest[u] in w.claims && !Name(users, w.latest[u]) && w.latest[u] != CAPTCHA_KEY;
    if name in w.latest {
      assert Held(users, w, name);
    }
  }

  lemma {:induction false} UnsignedBacked(users: Users, w: World, name: string)
    requires SingleSession(users, w) && Backed(w) && Name(users, name) && name !in w.latest
    ensures BackedIn(w.latest, w.cache - GoneBySignIn(w, name))
  {
    forall u | u in w.latest
      ensures w.latest[u] !in GoneBySignIn(w, name)
    {
      OthersToken(users, w, u, name);
    }
  }

  lemma {:induction false} SignedBacked(users: Users, w: World, p: Payload, token: string)
    requires SingleSession(users, w) && Backed(w) && Name(users, p.username) && token !in w.claims
    ensures BackedIn(w.latest[p.username := token], WithSession(w.cache, GoneBySignIn(w, p.username), p, token))
  {
    forall u | u in w.latest && u != p.username
      ensures w.latest[u] !in GoneBySignIn(w, p.username) + {p.username, token}
    {
      assert Held(users, w, u);
      OthersToken(users, w, u, p.username);
    }
  }

  lemma {:induction false} SignInKeepsBacked(users: Users, w: World, a: SignInAttempt)
    requires GoodUsers(users) && SingleSession(users, w) && Backed(w) && Allowed(users, w, DoSignIn(a))
    requires !Disturbs(w, DoSignIn(a))
    ensures Backed(Next(users, w, DoSignIn(a)))
  {
    if ReachesSigning(w.store, w.cache, a) {
      var name := a.credentials.username;
      assert Name(users, name);
      SessionKey(users, w, name);
      SignInCache(w, a);
      if a.signed.None? {
        UnsignedBacked(users, w, name);
      } else {
        SignedBacked(users, w, Payload(a.credentials.id, name), a.signed.value);
      }
    }
  }

  lemma {:induction false} BlankBacked(w: World, token: string)
    requires Backed(w) && !Latest(w, token)
    ensures BackedIn(w.latest, w.cache[token := Claims(None)])
  {
    forall u | u in w.latest
      ensures w.latest[u] != token
    {
      assert w.latest[u] == token ==> LatestOf(w, u, token);
    }
  }

  lemma {:induction false} RenewedBacked(users: Users, w: World, name: string, token: string)
    requires SingleSession(users, w) && Backed(w) && LatestOf(w, name, token)
    requires token in w.claims && w.claims[token].Some?
    ensures BackedIn(w.latest, w.cache[token := Claims(w.claims[token])][name := Token(token)])
  {
    assert Held(users, w, name);
    forall u | u in w.latest
      ensures w.latest[u] != name
    {
      OthersToken(users, w, u, name);
    }
  }

  lemma {:induction false} DroppedBacked(users: Users, w: World, name: string, token: string)
    requires SingleSession(users, w) && Backed(w) && name in w.latest && w.latest[name] != token
    requires token in w.claims && w.claims[token].Some? && w.claims[token].value.username == name
    ensures BackedIn(w.latest, w.cache[token := Claims(w.claims[token])] - {token})
  {
    forall u | u in w.latest
      ensures w.latest[u] != token
    {
      assert Held(users, w, u);
    }
  }

  lemma {:induction false} PlainKeepsBacked(users: Users, w: World, token: string, unreachable: bool,
                                            signed: Option<string>)
    requires SingleSession(users, w) && Backed(w) && token !in w.latest
    requires Issued(w, DoRequest(token, unreachable, signed)).None? && !(unreachable && Latest(w, token))
    ensures BackedIn(w.latest, Responds(users, w, DoRequest(token, unreachable, signed)).1)
  {
    PlainRequest(users, w, token, unreachable, signed);
    var v := Verify(w, token, unreachable);
    if v.Valid? && v.payload.Some? {
      var name := v.payload.value.username;
      assert w.claims[token] == v.payload && name in w.latest;
      if w.latest[name] == token {
        RenewedBacked(users, w, name, token);
      } else {
        DroppedBacked(users, w, name, token);
      }
    } else if !Latest(w, token) {
      BlankBacked(w, token);
    } else {
      var u :| LatestOf(w, u, token);
      assert Held(users, w, u) && Renewable(w, token);
    }
  }

  lemma {:induction false} RequestKeepsBacked(users: Users, w: World, token: string, unreachable: bool,
                                              signed: Option<string>)
    requires GoodUsers(users) && SingleSession(users, w) && Backed(w)
    requires Allowed(users, w, DoRequest(token, unreachable, signed)) && token !in w.latest
    ensures Backed(Next(users, w, DoRequest(token, unreachable, signed))) <==> !(unreachable && Latest(w, token))
  {
    var step := DoRequest(token, unreachable, signed);
    var w' := Next(users, w, step);
    if unreachable && Latest(w, token) {
      var u :| LatestOf(w, u, token);
      assert u in w'.latest && w'.cache[w'.latest[u]] == Claims(None);
    } else if Issued(w, step).None? {
      PlainKeepsBacked(users, w, token, unreachable, signed);
    } else {
      forall u | u in w'.latest
        ensures Renewable(w', w'.latest[u])
      {
        ReissueKeepsToken(users, w, u, token, unreachable, signed);
      }
    }
  }

  lemma {:induction false} ReissueKeepsToken(users: Users, w: World, u: string, token: string, unreachable: bool,
                                             signed: Option<string>)
    requires GoodUsers(users) && SingleSession(users, w) && Backed(w) &&
             Allowed(users, w, DoRequest(token, unreachable, signed))
    requires Issued(w, DoRequest(token, unreachable, signed)).Some? && token !in w.latest
    requires u in Next(users, w, DoRequest(token, unreachable, signed)).latest
    ensures var w' := Next(users, w, DoRequest(token, unreachable, signed)); Renewable(w', w'.latest[u])
  {
    if u in w.latest {
      assert w.latest[u] in w.claims && w.latest[u] != signed.value;
    }
    if w.cache[token].payload.None? {
      assert Next(users, w, DoRequest(token, unreachable, signed)).cache == w.cache[signed.value := Claims(None)];
    } else {
      ResigningRequest(users, w, token, unreachable, signed);
      var name := w.cache[token].payload.value.username;
      if u != name {
        assert Name(users, name);
        OthersToken(users, w, u, name);
      }
    }
  }

  // ---------- Whole runs ----------

  const START := World(map[], map[], map[], {}, map[])

  ghost function WorldAt(users: Users, run: seq<Step>, k: nat): World
    requires k <= |run|
  {
    if k == 0 then START else Next(users, WorldAt(users, run, k - 1), run[k - 1])
  }

  ghost predicate CalmStep(users: Users, run: seq<Step>, k: nat)
    requires k < |run|
  {
    Allowed(users, WorldAt(users, run, k), run[k]) && !Disturbs(WorldAt(users, run, k), run[k])
  }

  /** Every step is allowed and none disturbs a user's key. */
  ghost predicate CalmRun(users: Users, run: seq<Step>) {
    GoodUsers(users) && forall k :: 0 <= k < |run| ==> CalmStep(users, run, k)
  }

  /** The token server answers every request. */
  ghost predicate AlwaysAnswered(run: seq<Step>) {
    forall i :: 0 <= i < |run| && run[i].DoRequest? ==> !run[i].unreachable
  }

  /** In every calm run each user has a single session at every moment. */
  lemma {:induction false} SingleSessionAlways(users: Users, run: seq<Step>, k: nat)
    requires CalmRun(users, run) && k <= |run|
    ensures SingleSession(users, WorldAt(users, run, k))
  {
    if k > 0 {
      SingleSessionAlways(users, run, k - 1);
      assert CalmStep(users, run, k - 1);
      SingleSessionKept(users, WorldAt(users, run, k - 1), run[k - 1]);
    }
  }

  lemma {:induction false} CalmAt(users: Users, run: seq<Step>, k: nat)
    requires CalmRun(users, run) && k < |run|
    ensures CalmStep(users, run, k)
  {
  }

  lemma {:induction false} BackedStep(users: Users, run: seq<Step>, k: nat)
    requires GoodUsers(users) && k < |run| && CalmStep(users, run, k)
    requires run[k].DoRequest? ==> !run[k].unreachable
    requires SingleSession(users, WorldAt(users, run, k)) && BackedAt(users, run, k)
    ensures BackedAt(users, run, k + 1)
  {
    BackedKept(users, WorldAt(users, run, k), run[k]);
  }

  ghost predicate BackedAt(users: Users, run: seq<Step>, k: nat)
    requires k <= |run|
  {
    Backed(WorldAt(users, run, k))
  }

  /** If the token server also answers, the claims of the latest tokens stay cached. */
  lemma {:induction false} BackedAlways(users: Users, run: seq<Step>, k: nat)
    requires CalmRun(users, run) && k <= |run| && AlwaysAnswered(run)
    ensures BackedAt(users, run, k)
  {
    if k == 0 {
      assert WorldAt(users, run, 0) == START;
    } else {
      SingleSessionAlways(users, run, k - 1);
      BackedAlways(users, run, k - 1);
      CalmAt(users, run, k - 1);
      BackedStep(users, run, k - 1);
    }
  }

  /** Whatever the network does, a calm run never accepts a token other than the latest of its user. */
  lemma {:induction false} OnlyLatestAccepted(users: Users, run: seq<Step>, k: nat)
    requires CalmRun(users, run) && k < |run| && run[k].DoRequest?
    ensures var w := WorldAt(users, run, k);
            Responds(users, w, run[k]).2.Accepted? ==> LatestOf(w, Responds(users, w, run[k]).2.username, run[k].token)
  {
    SingleSessionAlways(users, run, k);
    assert CalmStep(users, run, k);
    var step := run[k];
    AcceptedIffLatest(users, WorldAt(users, run, k), step.token, step.unreachable, step.signed);
  }

  /** In a calm run in which the token server always answers, a request for which it can sign is
      accepted exactly when its token is the latest one of some user. */
  lemma {:induction false} AcceptedExactly(users: Users, run: seq<Step>, k: nat)
    requires CalmRun(users, run) && k < |run| && run[k].DoRequest? && AlwaysAnswered(run) && run[k].signed.Some?
    ensures var w := WorldAt(users, run, k);
            Responds(users, w, run[k]).2.Accepted? <==> Latest(w, run[k].token)
  {
    SingleSessionAlways(users, run, k);
    BackedAlways(users, run, k);
    assert CalmStep(users, run, k);
    var w, step := WorldAt(users, run, k), run[k];
    AcceptedIffLatest(users, w, step.token, step.unreachable, step.signed);
    if Latest(w, step.token) {
      var u :| LatestOf(w, u, step.token);
      assert Renewable(w, w.latest[u]);
    }
  }

  // ---------- The lockout seen by a whole run ----------

  /** The lockout events behind a step: the failure check of a sign-in, and the reset if it is accepted. */
  ghost function EventsOf(users: Users, w: World, step: Step): seq<Event> {
    if !step.DoSignIn? then []
    else if Responds(users, w, step).2.Accepted?
    then [Attempt(step.attempt.principal, step.attempt.clock), Reset(step.attempt.principal)]
    else [Attempt(step.attempt.principal, step.attempt.clock)]
  }

  ghost function Events(users: Users, run: seq<Step>, k: nat): seq<Event>
    requires k < |run|
  {
    EventsOf(users, WorldAt(users, run, k), run[k])
  }

  /** The events of each step. */
  ghost function Parts(users: Users, run: seq<Step>): (parts: seq<seq<Event>>)
    ensures |parts| == |run|
    ensures forall k :: 0 <= k < |run| ==> parts[k] == Events(users, run, k)
  {
    seq(|run|, k requires 0 <= k < |run| => Events(users, run, k))
  }

  /** The events of the first k parts. */
  function Flat(parts: seq<seq<Event>>, k: nat): seq<Event>
    requires k <= |parts|
  {
    if k == 0 then [] else Flat(parts, k - 1) + parts[k - 1]
  }

  /** The lockout events of the first k steps. */
  ghost function LockoutRun(users: Users, run: seq<Step>, k: nat): seq<Event>
    requires k <= |run|
  {
    Flat(Parts(users, run), k)
  }

  ghost function ApplyAll(s: Store, events: seq<Event>): Store
    decreases |events|
  {
    if events == [] then s else ApplyAll(Apply(s, events[0]), events[1..])
  }

  lemma {:induction false} StoreAtAppend(before: seq<Event>, after: seq<Event>)
    ensures StoreAt(before + after, |before + after|) == ApplyAll(StoreAt(before, |before|), after)
    decreases |after|
  {
    if after == [] {
      assert before + after == before;
    } else {
      var longer := before + [after[0]];
      assert before + after == longer + after[1..];
      StoreAtPrefix(before, [after[0]], |before|);
      StoreAtAppend(longer, after[1..]);
    }
  }

  lemma {:induction false} StepIsEvents(users: Users, w: World, step: Step)
    ensures Next(users, w, step).store == ApplyAll(w.store, EventsOf(users, w, step))
  {
    var events := EventsOf(users, w, step);
    if step.DoSignIn? {
      var checked := Apply(w.store, events[0]);
      if |events| == 2 {
        assert events[1..] == [Reset(step.attempt.principal)];
        assert ApplyAll(checked, events[1..]) == Apply(checked, events[1]);
      }
    }
  }

  /** The stores that the parts lead through are those of the events so far. */
  lemma {:induction false} FlatStore(stores: seq<Store>, parts: seq<seq<Event>>, k: nat)
    requires |stores| == |parts| + 1 && k <= |parts| && stores[0] == map[]
    requires forall s :: 0 <= s < k ==> stores[s + 1] == ApplyAll(stores[s], parts[s])
    ensures stores[k] == StoreAt(Flat(parts, k), |Flat(parts, k)|)
  {
    if k > 0 {
      FlatStore(stores, parts, k - 1);
      StoreAtAppend(Flat(parts, k - 1), parts[k - 1]);
      assert stores[(k - 1) + 1] == ApplyAll(stores[k - 1], parts[k - 1]);
    }
  }

  /** The failure store before each step, and after the last. */
  ghost function Stores(users: Users, run: seq<Step>): (stores: seq<Store>)
    ensures |stores| == |run| + 1
    ensures forall k :: 0 <= k <= |run| ==> stores[k] == WorldAt(users, run, k).store
  {
    seq(|run| + 1, k requires 0 <= k <= |run| => WorldAt(users, run, k).store)
  }

  /** The failure store of any run is the one of its lockout events alone. */
  lemma {:induction false} LockoutRunExplainsStore(users: Users, run: seq<Step>, k: nat)
    requires k <= |run|
    ensures WorldAt(users, run, k).store == StoreAt(LockoutRun(users, run, k), |LockoutRun(users, run, k)|)
  {
    var stores, parts := Stores(users, run), Parts(users, run);
    forall s | 0 <= s < k
      ensures stores[s + 1] == ApplyAll(stores[s], parts[s])
    {
      StepIsEvents(users, WorldAt(users, run, s), run[s]);
    }
    FlatStore(stores, parts, k);
  }

  // ---------- What a disturbing step costs ----------

  function DisturbedUser(step: Step): string {
    match step
    case Expire(stale) => stale
    case DoRequest(token, _, _) => token
    case DoSignIn(a) => if a.credentials.Verified? then a.credentials.username else ""
  }

  /** A verified token is accepted when its user's key holds no token to compare it with. */
  lemma {:induction false} AcceptedWithoutKey(users: Users, w: World, token: string)
    requires token != "" && token in w.claims && token !in w.expired && w.claims[token].Some?
    requires GoodPayload(users, w.claims[token].value) && w.claims[token].value.username != token
    requires var name := w.claims[token].value.username; name in w.cache ==> !w.cache[name].Token?
    ensures Responds(users, w, DoRequest(token, false, None)).2.Accepted?
  {
  }

  /** After a step that disturbs a user's key, every unexpired token ever issued to that user is accepted again. */
  lemma {:induction false} DisturbedReadmitsAll(users: Users, w: World, step: Step, token: string)
    requires GoodUsers(users) && SingleSession(users, w) && Allowed(users, w, step) && Disturbs(w, step)
    requires token in w.claims && token !in w.expired
    requires w.claims[token].Some? && w.claims[token].value.username == DisturbedUser(step)
    ensures Responds(users, Next(users, w, step), DoRequest(token, false, None)).2.Accepted?
  {
    var name := DisturbedUser(step);
    var w' := Next(users, w, step);
    assert GoodPayload(users, w.claims[token].value);
    assert Name(users, name) && token != name && token != "";
    if step.DoRequest? {
      NameRequest(users, w, name, step.unreachable, step.signed);
    } else {
      assert name !in w'.cache;
    }
    assert token in w'.claims && w'.claims[token] == w.claims[token] && w'.expired == w.expired;
    AcceptedWithoutKey(users, w', token);
  }

  // Two sign-ins of one user; the first token has not expired.
  const ALICE: Users := map[1 := "alice"]
  const NOON := Readings(0, 0, 0, 0, 0, 0)

  function AliceSignsIn(token: string): Step {
    DoSignIn(SignInAttempt("alice", NOON, 0, 0, true, Verified(1, "alice"), Some(token)))
  }

  /** Where two sign-ins of alice lead, and that they are calm. */
  lemma {:induction false} AliceTwice() returns (w: World)
    ensures var run := [AliceSignsIn("t1"), AliceSignsIn("t2")];
            && CalmRun(ALICE, run) && w == WorldAt(ALICE, run, 2)
    ensures var p := Some(Payload(1, "alice"));
            w == World(map[], map["alice" := Token("t2"), "t2" := Claims(p)], map["t1" := p, "t2" := p], {},
                       map["alice" := "t2"])
  {
    var run := [AliceSignsIn("t1"), AliceSignsIn("t2")];
    assert "t1"[1] != "t2"[1] && |"alice"| == 5 && |CAPTCHA_KEY| == 16;
    assert Name(ALICE, "alice") by { assert 1 in ALICE; }
    var p := Some(Payload(1, "alice"));
    var w1 := World(map[], map["alice" := Token("t1"), "t1" := Claims(p)], map["t1" := p], {}, map["alice" := "t1"]);
    assert WorldAt(ALICE, run, 1) == w1;
    w := WorldAt(ALICE, run, 2);
    assert CalmStep(ALICE, run, 0) && CalmStep(ALICE, run, 1);
  }

  /** After two calm sign-ins, a request whose token is "alice" disturbs her key, and the
      request after it is accepted with a token that is not her latest. */
  lemma {:induction false} NameRequestBreaksTheRule()
    ensures var run := [AliceSignsIn("t1"), AliceSignsIn("t2")];
            var disturbed := Next(ALICE, WorldAt(ALICE, run, 2), DoRequest("alice", false, None));
            && CalmRun(ALICE, run)
            && Disturbs(WorldAt(ALICE, run, 2), DoRequest("alice", false, None))
            && !Latest(disturbed, "t1")
            && Responds(ALICE, disturbed, DoRequest("t1", false, None)).2.Accepted?
  {
    var run := [AliceSignsIn("t1"), AliceSignsIn("t2")];
    var w := AliceTwice();
    assert "t1"[1] != "t2"[1];
    SingleSessionAlways(ALICE, run, 2);
    DisturbedReadmitsAll(ALICE, w, DoRequest("alice", false, None), "t1");
    NameRequest(ALICE, w, "alice", false, None);
  }

  /** After the same sign-ins, a third that displaces her session and gets no token does the same. */
  lemma {:induction false} UnsignedSignInBreaksTheRule()
    ensures var run := [AliceSignsIn("t1"), AliceSignsIn("t2")];
            var unsigned := DoSignIn(AliceSignsIn("t3").attempt.(signed := None));
            var disturbed := Next(ALICE, WorldAt(ALICE, run, 2), unsigned);
            && CalmRun(ALICE, run) && Disturbs(WorldAt(ALICE, run, 2), unsigned)
            && !Latest(disturbed, "t1")
            && Responds(ALICE, disturbed, DoRequest("t1", false, None)).2.Accepted?
  {
    var run := [AliceSignsIn("t1"), AliceSignsIn("t2")];
    var unsigned := DoSignIn(AliceSignsIn("t3").attempt.(signed := None));
    var w := AliceTwice();
    assert "t1"[1] != "t2"[1];
    SingleSessionAlways(ALICE, run, 2);
    assert Name(ALICE, "alice") by { assert 1 in ALICE; }
    DisturbedReadmitsAll(ALICE, w, unsigned, "t1");
  }
}
