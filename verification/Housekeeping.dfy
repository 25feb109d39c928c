/** What reading, sweeping and restarting leave: what is unexpired is shown and stays, what is expired
    goes, and a restart loses the stores but no table. */
module Housekeeping {
  import opened Basics
  import opened OAuthTypes
  import opened Machine
  import P = ProviderModel

  /** The browser's pages see a request and a login exactly until they expire. */
  lemma ShownUntilExpired(s: Server, r: RequestId, l: LoginId, now: Time)
    ensures Perform(s, ShowRequest(r), now).1 ==
      RequestShown(if r in s.requests && now < s.requests[r].expiresAt then Some(s.requests[r]) else None)
    ensures Perform(s, ShowLogin(l), now).1 ==
      LoginShown(if l in s.logins && now < s.logins[l].expiresAt then Some(s.logins[l]) else None)
  {
  }

  /** The token endpoint sees a code exactly until it expires, for the client it was made for. */
  lemma CodeShownUntilExpired(s: Server, c: CodeId, clientId: ClientId, now: Time)
    ensures Perform(s, ShowCode(c, clientId), now).1 ==
      CodeShown(if c in s.codes && now < s.codes[c].expiresAt && s.codes[c].clientId == clientId
                then Some(s.codes[c]) else None)
  {
    SweptCode(s, c, clientId, now);
    hide P.Cleanup, P.GetCode;
  }

  lemma SweptCode(s: Server, c: CodeId, clientId: ClientId, now: Time)
    ensures P.GetCode(P.Cleanup(s, now), c, clientId, now).1 ==
      if c in s.codes && now < s.codes[c].expiresAt && s.codes[c].clientId == clientId then Some(s.codes[c]) else None
  {
    hide P.LiveGrants, P.LiveTokens, P.LiveRequests, P.LiveLogins;
  }

  predicate Unexpired(s: Server, now: Time) {
    (forall r :: r in s.requests ==> now < s.requests[r].expiresAt) &&
    (forall l :: l in s.logins ==> now < s.logins[l].expiresAt) &&
    (forall c :: c in s.codes ==> now < s.codes[c].expiresAt)
  }

  /** A sweep removes exactly what has expired from the stores each time. From the tables it does so
      at most once in sixty seconds: grants with all their tokens, and access tokens by themselves. */
  lemma CleanupSweeps(s: Server, now: Time)
    ensures
      var s' := Perform(s, Cleanup, now).0;
      Unexpired(s', now) &&
      (forall r :: r in s.requests && now < s.requests[r].expiresAt ==> r in s'.requests) &&
      (forall r :: r in s'.requests ==> r in s.requests && s'.requests[r] == s.requests[r]) &&
      (forall l :: l in s.logins && now < s.logins[l].expiresAt ==> l in s'.logins) &&
      (forall l :: l in s'.logins ==> l in s.logins && s'.logins[l] == s.logins[l]) &&
      (forall c :: c in s.codes && now < s.codes[c].expiresAt ==> c in s'.codes) &&
      (forall c :: c in s'.codes ==> c in s.codes && s'.codes[c] == s.codes[c])
    ensures
      var s' := Perform(s, Cleanup, now).0;
      if now < s.nextCleanup then s'.grants == s.grants && s'.tokens == s.tokens && s'.nextCleanup == s.nextCleanup
      else
        s'.nextCleanup == now + 60 &&
        (forall g :: g in s'.grants <==> g in s.grants && now < s.grants[g].expiresAt) &&
        (forall g :: g in s'.grants ==> s'.grants[g] == s.grants[g]) &&
        (forall t :: t in s'.tokens <==>
           t in s.tokens && s.tokens[t].grantId in s'.grants &&
           (s.tokens[t].kind == Access ==> now < s.tokens[t].expiresAt)) &&
        (forall t :: t in s'.tokens ==> s'.tokens[t] == s.tokens[t])
  {
  }

  ghost predicate Swept(s: Server, s': Server, now: Time) {
    Unexpired(s', now) && (s.nextCleanup <= now ==> forall g :: g in s'.grants ==> now < s'.grants[g].expiresAt)
  }

  lemma CleanupIsSwept(s: Server, now: Time)
    ensures Swept(s, P.Cleanup(s, now), now)
    ensures Swept(s, P.Cleanup(P.Cleanup(s, now), now), now)
  {
  }

  lemma RevokedIsSwept(s: Server, s': Server, g: GrantId, now: Time)
    requires Swept(s, s', now)
    ensures Swept(s, P.RevokeGrant(s', g, now), now)
  {
  }

  lemma LoadedIsSwept(s: Server, s1: Server, clientId: ClientId, t: Token, now: Time)
    requires Swept(s, P.Cleanup(s1, now), now)
    ensures Swept(s, P.LoadRefresh(s1, clientId, t, now).0, now)
  {
    var s2 := P.Cleanup(s1, now);
    var found := P.FindToken(s2, t, Refresh, now);
    if found.Some? { RevokedIsSwept(s, s2, found.value.grantId, now); }
    hide Swept, P.Cleanup, P.FindToken, P.RevokeGrant;
  }

  lemma RevocationIs(s: Server, clientId: ClientId, t: Token, now: Time) returns (s2: Server, token: Option<TokenInfo>)
    ensures s2 == P.Cleanup(s, now) || s2 == P.LoadRefresh(P.Cleanup(s, now), clientId, t, now).0
    ensures P.RevokeToken(s, clientId, t, now) == s2 ||
      (token.Some? && P.RevokeToken(s, clientId, t, now) == P.RevokeGrant(s2, token.value.grantId, now))
  {
    hide P.Cleanup, P.FindToken, P.RevokeGrant, P.LoadRefresh;
    var (s1, access) := P.LoadAccess(s, t, now);
    s2, token := s1, access;
    if access.None? {
      var loaded := P.LoadRefresh(s1, clientId, t, now);
      s2, token := loaded.0, loaded.1;
    }
  }

  lemma RevocationIsSwept(s: Server, clientId: ClientId, t: Token, now: Time)
    ensures Swept(s, P.RevokeToken(s, clientId, t, now), now)
  {
    hide *;
    CleanupIsSwept(s, now);
    LoadedIsSwept(s, P.Cleanup(s, now), clientId, t, now);
    var s2, token := RevocationIs(s, clientId, t, now);
    if token.Some? { RevokedIsSwept(s, s2, token.value.grantId, now); }
  }

  lemma AuthorizedIsSwept(s: Server, clientId: ClientId, req: AuthorizationRequest, r: RequestId, now: Time)
    requires clientId in s.clients
    ensures Swept(s, P.Authorize(s, clientId, req, r, now).0, now)
  {
    CleanupIsSwept(s, now);
    hide P.Cleanup, P.ValidChallenge, P.RequestedScopes;
  }

  lemma CodeIsSwept(s: Server, c: CodeId, clientId: ClientId, now: Time)
    ensures Swept(s, P.GetCode(P.Cleanup(s, now), c, clientId, now).0, now)
  {
    CleanupIsSwept(s, now);
    hide P.Cleanup;
  }

  /** Nothing expired is left in the stores by an authorization request, the look-up of a code or
      token, or a revocation; one that finds a cleanup due leaves no expired grant either. */
  lemma LookUpsSweep(s: Server, op: Op, now: Time)
    requires op.ShowCode? || op.LoadAccess? || op.LoadRefresh? || op.RevokeToken? || op.Authorize?
    requires op.Authorize? ==> op.clientId in s.clients
    ensures Swept(s, Perform(s, op, now).0, now)
  {
    hide Swept, P.Cleanup, P.FindToken, P.GetCode, P.LoadRefresh, P.RevokeToken, P.Authorize;
    match op
    case ShowCode(c, clientId) => CodeIsSwept(s, c, clientId, now);
    case LoadRefresh(clientId, t) =>
      CleanupIsSwept(s, now);
      LoadedIsSwept(s, s, clientId, t, now);
    case RevokeToken(clientId, t) => RevocationIsSwept(s, clientId, t, now);
    case Authorize(clientId, req, r) => AuthorizedIsSwept(s, clientId, req, r, now);
    case LoadAccess(_) => CleanupIsSwept(s, now);
  }

  /** A restart loses every pending request, login and code, and nothing of the tables. */
  lemma RestartLosesStores(s: Server, grantTtl: int, now: Time)
    ensures
      var s' := Perform(s, Restart(grantTtl), now).0;
      s'.clients == s.clients && s'.grants == s.grants && s'.tokens == s.tokens && s'.resource == s.resource &&
      s'.grantTtl == grantTtl && s'.requests == map[] && s'.logins == map[] && s'.codes == map[] && s'.nextCleanup <= 0
  {
  }
}
