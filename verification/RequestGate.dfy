/** What decides a request: the token server's answer, the cached claims, and the token under the user's key. */
module RequestGate {
  import opened Wrappers
  import opened Lockout
  import opened Session
  import opened SessionRuns

  /** A token that did not verify, with claims in the cache, is signed anew from these. */
  ghost predicate Renews(c: Cache, token: string, v: Verification) {
    v == Invalid && token in c && c[token].Claims?
  }

  /** Whose request it is: the verified payload, or the cached one of a token that is signed anew. */
  ghost function PayloadOf(c: Cache, token: string, v: Verification): Option<Payload> {
    if v.Valid? then v.payload else if Renews(c, token, v) then c[token].payload else None
  }

  /** The cache holds a token of the user that is not the one of this request. */
  ghost predicate HoldsOther(c: Cache, user: string, token: string) {
    user in c && user != token && c[user].Token? && c[user].token != "" && c[user].token != token
  }

  /** The keys of all users and tokens but these are as before. */
  ghost predicate SameBut(c: Cache, c': Cache, keys: set<string>) {
    forall k :: k !in keys ==> (k in c' <==> k in c) && (k in c ==> c'[k] == c[k])
  }

  /** How a request is answered, whatever the cache holds: with an error where nobody signs, as of no user where there
      is no payload, by a crash where the payload's user has no row, as displaced where the user's key holds another
      token that this one does not replace, and else as accepted. */
  lemma {:induction false} RequestAnswers(users: Users, c: Cache, token: string, v: Verification,
                                          signed: Option<string>)
    ensures
      var response, payload := Request(users, c, token, v, signed).1, PayloadOf(c, token, v);
      var renews := Renews(c, token, v);
      if (renews && signed.None?) || payload.None? then response == Rejected
      else if payload.value.id !in users then response == Stopped
      else
        var user := users[payload.value.id];
        if !renews && HoldsOther(c, user, token) then response == Rejected
        else response == Accepted(user, if renews then signed.value else token)
  {
  }

  /** What a request leaves in the cache: the claims under its token, unless it is displaced, and the new token under
      the user's key if that held one, which then loses its claims. */
  lemma {:induction false} RequestLeaves(users: Users, c: Cache, token: string, v: Verification,
                                         signed: Option<string>)
    ensures
      var (c', response), payload := Request(users, c, token, v, signed), PayloadOf(c, token, v);
      var renews := Renews(c, token, v);
      if renews && signed.None? then c' == c
      else
        var current := if renews then signed.value else token;
        if !response.Accepted? then
          && SameBut(c, c', {current})
          && (current in c' <==> payload.None? || payload.value.id !in users)
          && (current in c' ==> c'[current] == Claims(payload))
        else
          var user := response.username;
          if user == current || user !in c || !c[user].Token? then
            SameBut(c, c', {current}) && current in c' && c'[current] == Claims(payload)
          else
            var last := c[user].token;
            && SameBut(c, c', {current, user, last})
            && (!renews || last != user ==> user in c' && c'[user] == Token(current))
            && (!renews || last != current ==> current in c' && c'[current] == Claims(payload))
            && (renews ==> last !in c')
            && (!renews ==> SameBut(c, c', {current, user}))
  {
  }

  // ---------- What a disturbing step costs, for good ----------

  /** An unexpired token of the user. */
  ghost predicate TokenOf(users: Users, w: World, token: string, name: string) {
    && token != "" && token != name && token in w.claims && token !in w.expired && w.claims[token].Some?
    && GoodPayload(users, w.claims[token].value) && w.claims[token].value.username == name
  }

  ghost predicate NoTokenHeld(w: World, name: string) {
    name in w.cache ==> !w.cache[name].Token?
  }

  /** The world after requests with these tokens, one after the other, that the token server answers. */
  ghost function AfterRequests(users: Users, w: World, tokens: seq<string>): World
    decreases |tokens|
  {
    if tokens == [] then w
    else AfterRequests(users, Next(users, w, DoRequest(tokens[0], false, None)), tokens[1..])
  }

  lemma {:induction false} StillNoTokenHeld(users: Users, w: World, name: string, token: string)
    requires NoTokenHeld(w, name) && TokenOf(users, w, token, name)
    ensures Responds(users, w, DoRequest(token, false, None)).2 == Accepted(name, token)
    ensures
      var next := Next(users, w, DoRequest(token, false, None));
      NoTokenHeld(next, name) && next.claims == w.claims && next.expired == w.expired
  {
  }

  lemma {:induction false} AcceptedInTurn(users: Users, w: World, name: string, tokens: seq<string>, i: nat)
    requires i < |tokens| && NoTokenHeld(w, name) && forall t :: t in tokens ==> TokenOf(users, w, t, name)
    ensures Responds(users, AfterRequests(users, w, tokens[..i]), DoRequest(tokens[i], false, None)).2 ==
            Accepted(name, tokens[i])
    decreases |tokens|
  {
    StillNoTokenHeld(users, w, name, tokens[0]);
    if i > 0 {
      var next := Next(users, w, DoRequest(tokens[0], false, None));
      assert tokens[..i][1..] == tokens[1..][..i - 1];
      assert forall t :: t in tokens[1..] ==> t in tokens;
      AcceptedInTurn(users, next, name, tokens[1..], i - 1);
    }
  }

  /** After a step that disturbs a user's key, all the user's unexpired tokens work side by side: requests with them,
      in any order and number, are all accepted. */
  lemma {:induction false} SessionsSideBySide(users: Users, w: World, step: Step, tokens: seq<string>, i: nat)
    requires GoodUsers(users) && SingleSession(users, w) && Allowed(users, w, step) && Disturbs(w, step)
    requires i < |tokens| && forall t :: t in tokens ==> TokenOf(users, w, t, DisturbedUser(step))
    ensures
      var after := AfterRequests(users, Next(users, w, step), tokens[..i]);
      Responds(users, after, DoRequest(tokens[i], false, None)).2 == Accepted(DisturbedUser(step), tokens[i])
  {
    var name, next := DisturbedUser(step), Next(users, w, step);
    assert tokens[i] in tokens && GoodPayload(users, w.claims[tokens[i]].value);
    assert Name(users, name);
    if step.DoRequest? {
      NameRequest(users, w, name, step.unreachable, step.signed);
    } else {
      assert name !in next.cache;
    }
    AcceptedInTurn(users, next, name, tokens, i);
  }
}
