/**
 What decides a sign-in in a run of the API server: what the principal and others did before, the password, the
 captcha where one is due, and the token server.
 */
module SignInGate {
  import opened Wrappers
  import opened Lockout
  import opened FailureCount
  import opened Session
  import opened SessionRuns
  import opened SignInBound

  // ---------- Who is let through ----------

  /** The captcha flag was written at most 300 seconds ago. */
  ghost predicate Flagged(c: Cache, now: int) {
    "validate_captcha" in c && c["validate_captcha"].Flag? && now - c["validate_captcha"].createdTime <= 300_000_000_000
  }

  /** The step is rejected, issues no token and changes nothing but the lockout store. */
  ghost predicate TurnedAway(users: Users, w: World, step: Step) {
    && Responds(users, w, step).2 == Rejected && Issued(w, step) == None
    && Next(users, w, step) == w.(store := Next(users, w, step).store)
  }

  /** The sign-in is decided by the password, by the captcha where one is due, and by the token server, which is asked
      for a token only if both are right. */
  ghost predicate LetIn(users: Users, w: World, a: SignInAttempt, due: bool) {
    if a.credentials.Verified? && (due ==> a.captchaOk) && a.signed.Some? then
      && Responds(users, w, DoSignIn(a)).2 == Accepted(a.credentials.username, a.signed.value)
      && Issued(w, DoSignIn(a)) ==
         Some((a.signed.value, Some(Payload(a.credentials.id, a.credentials.username))))
    else
      Responds(users, w, DoSignIn(a)).2 == Rejected && Issued(w, DoSignIn(a)) == None
  }

  /** Sign-in k of p finds an entry and keeps it. */
  ghost predicate FindsEntry(users: Users, run: seq<Step>, k: nat, p: string)
    requires SignInOf(run, k, p)
  {
    var s, t := WorldAt(users, run, k).store, ClockOf(run, k);
    p in s && t.exist - s[p].createdTime <= 300_000_000_000 && t.get - s[p].createdTime <= 300_000_000_000
  }

  /** The record of p at sign-in k began at lockout event i, with n attempts of p since. */
  ghost predicate Since(users: Users, run: seq<Step>, k: nat, p: string, i: nat, n: nat)
    requires k <= |run|
  {
    var events := LockoutRun(users, run, k);
    LatestBegin(events, p, i, |events|) && n == CountKept(events, p, i + 1, |events|)
  }

  lemma {:induction false} LockoutRunWellTimed(users: Users, run: seq<Step>, k: nat)
    requires WellTimedRun(run) && k <= |run|
    ensures WellTimed(LockoutRun(users, run, k))
  {
    forall s | 0 <= s < k
      ensures Fits(Parts(users, run)[s], run, s)
    {
      EventsShape(users, run, s);
    }
    FlatWellTimed(Parts(users, run), run, k);
  }

  /** In every well-timed run a sign-in that finds an entry is decided by the attempts since the record began, the
      flag, the password and the token server: turned away if it is blocked, which takes nine attempts; let in on
      the password alone up to the second, and with a captcha as well from then on. */
  lemma {:induction false} DecidedByHistory(users: Users, run: seq<Step>, k: nat, p: string) returns (i: nat, n: nat)
    requires WellTimedRun(run) && SignInOf(run, k, p) && FindsEntry(users, run, k, p)
    ensures Since(users, run, k, p, i, n)
    ensures
      var w, a := WorldAt(users, run, k), run[k].attempt;
      var flagged := Flagged(w.cache, a.captchaRead);
      if n <= 8 then LetIn(users, w, a, 2 <= n || flagged)
      else if NotBlocked(users, run, k, p) then LetIn(users, w, a, flagged)
      else TurnedAway(users, w, run[k])
  {
    var events := LockoutRun(users, run, k);
    LockoutRunExplainsStore(users, run, k);
    LockoutRunWellTimed(users, run, k);
    StoreIsGood(events, |events|);
    i := FailuresCounted(events, p, |events|);
    n := CountKept(events, p, i + 1, |events|);
  }

  /** A sign-in that starts an entry of its principal is never turned away; the flag alone makes a captcha due. */
  lemma {:induction false} FirstIsLetIn(users: Users, run: seq<Step>, k: nat, p: string)
    requires k < |run| && SignInOf(run, k, p) && !FindsEntry(users, run, k, p) && ClockOf(run, k).Ordered()
    ensures
      var w, a := WorldAt(users, run, k), run[k].attempt;
      NotBlocked(users, run, k, p) && LetIn(users, w, a, Flagged(w.cache, a.captchaRead))
  {
  }

  /** In every run a sign-in of a blocked principal is turned away. */
  lemma {:induction false} BlockedTurnedAway(users: Users, run: seq<Step>, k: nat, p: string)
    requires k < |run| && SignInOf(run, k, p) && !NotBlocked(users, run, k, p)
    ensures TurnedAway(users, WorldAt(users, run, k), run[k])
    ensures WorldAt(users, run, k + 1) == Next(users, WorldAt(users, run, k), run[k])
  {
  }

  // ---------- Who writes the flag ----------

  /** Sign-in k asks for a captcha. */
  ghost predicate AsksCaptcha(users: Users, run: seq<Step>, k: nat)
    requires k < |run|
  {
    run[k].DoSignIn? &&
    var w, a := WorldAt(users, run, k), run[k].attempt;
    var check := Checked(w.store, a.principal, a.clock);
    !check.blocked && (3 <= check.failedTimes <= 9 || Flagged(w.cache, a.captchaRead))
  }

  /** Sign-in k gets as far as asking for a token. */
  ghost predicate AsksToken(users: Users, run: seq<Step>, k: nat)
    requires k < |run|
  {
    run[k].DoSignIn? &&
    var w, a := WorldAt(users, run, k), run[k].attempt;
    && !Checked(w.store, a.principal, a.clock).blocked && a.credentials.Verified?
    && (AsksCaptcha(users, run, k) ==> a.captchaOk)
  }

  /** Step k writes the flag, and leaves it there. */
  ghost predicate WritesFlag(users: Users, run: seq<Step>, k: nat)
    requires k < |run|
  {
    AsksCaptcha(users, run, k) && !AsksToken(users, run, k)
  }

  /** Step k leaves no flag: a sign-in asks for a token, or the flag's own key comes as the token of a request. */
  ghost predicate DropsFlag(users: Users, run: seq<Step>, k: nat)
    requires k < |run|
  {
    AsksToken(users, run, k) || (run[k].DoRequest? && run[k].token == "validate_captcha")
  }

  /** The cache holds a flag written at the given time. */
  ghost predicate HasFlag(w: World, time: int) {
    "validate_captcha" in w.cache && w.cache["validate_captcha"] == Flag(time)
  }

  /** User names and newly signed tokens are as Allowed says at every step. */
  ghost predicate AllowedRun(users: Users, run: seq<Step>) {
    GoodUsers(users) && forall k :: 0 <= k < |run| ==> AllowedAt(users, run, k)
  }

  ghost predicate AllowedAt(users: Users, run: seq<Step>, k: nat)
    requires k < |run|
  {
    Allowed(users, WorldAt(users, run, k), run[k])
  }

  /** The key of the flag is nobody's token. */
  ghost predicate FlagKeyFree(w: World) {
    && "validate_captcha" !in w.claims
    && forall k :: k in w.cache && w.cache[k].Token? ==> w.cache[k].token != "validate_captcha"
  }

  lemma {:induction false} FlagKeyStaysFree(users: Users, w: World, step: Step)
    requires GoodUsers(users) && Allowed(users, w, step) && FlagKeyFree(w)
    ensures FlagKeyFree(Next(users, w, step))
  {
  }

  lemma {:induction false} FlagKeyAlwaysFree(users: Users, run: seq<Step>, k: nat)
    requires AllowedRun(users, run) && k <= |run|
    ensures FlagKeyFree(WorldAt(users, run, k))
  {
    if k > 0 {
      FlagKeyAlwaysFree(users, run, k - 1);
      assert AllowedAt(users, run, k - 1);
      FlagKeyStaysFree(users, WorldAt(users, run, k - 1), run[k - 1]);
    }
  }

  /** A request leaves the flag as it was, unless it names the flag's key. */
  lemma {:induction false} RequestKeepsFlag(users: Users, w: World, token: string, unreachable: bool,
                                            signed: Option<string>, time: int)
    requires GoodUsers(users) && Allowed(users, w, DoRequest(token, unreachable, signed)) && FlagKeyFree(w)
    ensures HasFlag(Next(users, w, DoRequest(token, unreachable, signed)), time) <==>
            token != "validate_captcha" && HasFlag(w, time)
  {
  }

  /** What one step does to the flag. */
  lemma {:induction false} FlagStep(users: Users, run: seq<Step>, k: nat, time: int)
    requires AllowedRun(users, run) && k < |run|
    ensures HasFlag(WorldAt(users, run, k + 1), time) <==>
            if WritesFlag(users, run, k) then run[k].attempt.captchaPut == time
            else !DropsFlag(users, run, k) && HasFlag(WorldAt(users, run, k), time)
  {
    assert AllowedAt(users, run, k);
    if run[k].DoRequest? {
      FlagKeyAlwaysFree(users, run, k);
      RequestKeepsFlag(users, WorldAt(users, run, k), run[k].token, run[k].unreachable, run[k].signed, time);
    }
  }

  /** Before which steps, and at the end, the flag is there with that time. */
  ghost function Flags(users: Users, run: seq<Step>, time: int): (has: seq<bool>)
    ensures |has| == |run| + 1
    ensures forall k :: 0 <= k <= |run| ==> has[k] == HasFlag(WorldAt(users, run, k), time)
  {
    seq(|run| + 1, k requires 0 <= k <= |run| => HasFlag(WorldAt(users, run, k), time))
  }

  /** Which steps write the flag at that time. */
  ghost function Writings(users: Users, run: seq<Step>, time: int): (sets: seq<bool>)
    ensures |sets| == |run|
    ensures forall k :: 0 <= k < |run| ==>
              sets[k] == (WritesFlag(users, run, k) && run[k].attempt.captchaPut == time)
  {
    seq(|run|, k requires 0 <= k < |run| => WritesFlag(users, run, k) && run[k].attempt.captchaPut == time)
  }

  /** Which steps write the flag anew or drop it. */
  ghost function Endings(users: Users, run: seq<Step>): (clears: seq<bool>)
    ensures |clears| == |run|
    ensures forall k :: 0 <= k < |run| ==> clears[k] == (WritesFlag(users, run, k) || DropsFlag(users, run, k))
  {
    seq(|run|, k requires 0 <= k < |run| => WritesFlag(users, run, k) || DropsFlag(users, run, k))
  }

  /** In every allowed run the flag is there exactly if some sign-in asked for a captcha without getting as far as a
      token, and since then none got that far and no request named the flag's key; it bears the time of the last. */
  lemma {:induction false} FlagByHistory(users: Users, run: seq<Step>, k: nat, time: int)
    requires AllowedRun(users, run) && k <= |run|
    ensures HasFlag(WorldAt(users, run, k), time) <==>
            exists i: nat :: SetSince(Writings(users, run, time), Endings(users, run), i, k)
  {
    var has, sets, clears := Flags(users, run, time), Writings(users, run, time), Endings(users, run);
    forall j | 0 <= j < |run|
      ensures has[j + 1] <==> sets[j] || (has[j] && !clears[j])
    {
      FlagStep(users, run, j, time);
    }
    HoldsSince(has, sets, clears, k);
  }
}
