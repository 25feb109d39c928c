/** `RelayOAuthProvider` and the browser's approval handler, as programs over the stores. Each
    method is proved to compute its function in `ProviderModel`. */
module Provider {
  import opened Basics
  import opened OAuthTypes
  import opened Stores
  import P = ProviderModel

  class RelayOAuthProvider {
    const resource: Resource
    const grantTtl: int
    const authorizationStore: AuthorizationStore
    const loginStore: LoginStore
    const codeStore: AuthorizationCodeStore
    const database: OAuthDatabase
    var nextCleanup: Time

    ghost function View(): Server
      reads this, authorizationStore, loginStore, codeStore, database
    {
      Server(resource, grantTtl, database.clients, database.grants, database.tokens,
             authorizationStore.requests, loginStore.sessions, codeStore.codes, nextCleanup)
    }

    /** Starting the process on an existing database: every store is empty. */
    constructor (resource: Resource, grantTtl: int, database: OAuthDatabase)
      requires grantTtl > 0
      ensures this.database == database && fresh(authorizationStore) && fresh(loginStore) && fresh(codeStore)
      ensures View() == Server(resource, grantTtl, database.clients, database.grants, database.tokens, map[], map[],
        map[], 0)
    {
      this.resource := resource;
      this.grantTtl := grantTtl;
      this.database := database;
      authorizationStore := new AuthorizationStore();
      loginStore := new LoginStore();
      codeStore := new AuthorizationCodeStore();
      nextCleanup := 0;
    }

    method Cleanup(now: Time)
      requires database.saved.None?
      modifies this, authorizationStore, loginStore, codeStore, database
      ensures View() == P.Cleanup(old(View()), now) && database.saved.None?
    {
      authorizationStore.Cleanup(now);
      codeStore.Cleanup(now);
      loginStore.Cleanup(now);
      if now >= nextCleanup {
        database.Begin();
        database.DeleteExpired(now);
        database.Commit();
        nextCleanup := now + CLEANUP_INTERVAL;
      }
    }

    predicate Active(g: GrantId, now: Time)
      reads this, database
      ensures Active(g, now) == P.Active(View(), g, now)
    {
      g in database.grants && database.grants[g].resource == resource && database.grants[g].revokedAt.None? &&
        database.grants[g].expiresAt > now
    }

    method RevokeGrant(g: GrantId, now: Time)
      modifies database`grants
      ensures View() == P.RevokeGrant(old(View()), g, now)
    {
      if g in database.grants && database.grants[g].revokedAt.None? {
        database.UpdateGrant(g, database.grants[g].(revokedAt := Some(now)));
      }
    }

    method LoadSession(g: GrantId, now: Time) returns (session: Option<RelaySession>)
      modifies database`grants
      ensures (View(), session) == P.LoadSession(old(View()), g, now)
    {
      if !Active(g, now) {
        return None;
      }
      var grant := database.grants[g];
      if grant.refreshPending {
        // The upstream may already have consumed the credential: never replay it.
        RevokeGrant(g, now);
        return None;
      }
      if grant.session.userId != grant.subject || grant.session.workspaceId != grant.workspaceId {
        RevokeGrant(g, now);
        return None;
      }
      session := Some(grant.session);
    }

    method BeginSessionRefresh(g: GrantId, now: Time) returns (ok: bool)
      modifies database`grants
      ensures (View(), ok) == P.BeginRefresh(old(View()), g, now)
    {
      ok := false;
      if g in database.grants {
        var grant := database.grants[g];
        if grant.revokedAt.None? && grant.expiresAt > now && !grant.refreshPending {
          database.UpdateGrant(g, grant.(refreshPending := true));
          ok := true;
        }
      }
    }

    method SaveSession(g: GrantId, session: RelaySession, now: Time) returns (ok: bool)
      modifies database`grants
      ensures (View(), ok) == P.SaveSession(old(View()), g, session, now)
    {
      var expiry := TokenExpiry(session.refresh, RefreshClaim);
      if expiry.None? || expiry.value <= now {
        RevokeGrant(g, now);
        return false;
      }
      ok := false;
      if g in database.grants {
        var grant := database.grants[g];
        if grant.subject == session.userId && grant.workspaceId == session.workspaceId && grant.revokedAt.None? &&
          grant.expiresAt > now {
          database.UpdateGrant(g, grant.(session := session, refreshPending := false,
            expiresAt := Min(grant.expiresAt, expiry.value)));
          ok := true;
        }
      }
    }

    method RegisterClient(clientId: ClientId, reg: Registration) returns (result: Result<ClientId, RegistrationError>)
      modifies database`clients
      ensures (View(), result) == P.Register(old(View()), clientId, reg)
    {
      if clientId in database.clients || reg.redirectUris == [] || reg.grantTypes - GRANT_TYPES != {} {
        return Err(InvalidClientMetadata);
      }
      for i := 0 to |reg.redirectUris|
        invariant forall j :: 0 <= j < i ==> P.SafeRedirect(reg.redirectUris[j])
      {
        if !P.SafeRedirect(reg.redirectUris[i]) {
          return Err(InvalidRedirectUri);
        }
      }
      database.clients := database.clients[clientId := Client(reg.scopes, P.UriTexts(reg.redirectUris))];
      result := Ok(clientId);
    }

    method Authorize(clientId: ClientId, req: AuthorizationRequest, r: RequestId, now: Time)
      returns (result: Result<RequestId, OAuthError>)
      requires database.saved.None?
      modifies this, authorizationStore, loginStore, codeStore, database
      ensures (View(), result) == P.Authorize(old(View()), clientId, req, r, now) && database.saved.None?
    {
      if clientId !in database.clients {
        return Err(InvalidClient);
      }
      var client := database.clients[clientId];
      Cleanup(now);
      var scopes := req.scopes.GetOr({});
      if req.scopes.None? && "relay:read" in client.scopes {
        scopes := {"relay:read"};
      }
      if !(scopes <= SCOPES * client.scopes) {
        return Err(InvalidScope);
      }
      if req.redirectUri !in client.redirectUris {
        return Err(InvalidRequest);
      }
      if !P.ValidChallenge(req.challenge) {
        return Err(InvalidRequest);
      }
      if req.resource != resource {
        return Err(InvalidTarget);
      }
      authorizationStore.Create(clientId, Params(scopes, req.redirectUri, req.challenge, req.resource), r, now);
      result := Ok(r);
    }

    method LoadAuthorizationCode(c: CodeId, clientId: ClientId, now: Time) returns (code: Option<Code>)
      requires database.saved.None?
      modifies this, authorizationStore, loginStore, codeStore, database
      ensures (View(), code) == P.GetCode(P.Cleanup(old(View()), now), c, clientId, now) && database.saved.None?
    {
      Cleanup(now);
      code := codeStore.Get(c, clientId, now);
    }

    /** Insert the access and the refresh row of a new pair. */
    method Issue(g: GrantId, scopes: set<Scope>, access: Token, refresh: Token, at: P.Readings)
      returns (result: Result<Tokens, OAuthError>)
      requires access !in database.tokens && refresh !in database.tokens && access != refresh
      modifies database`tokens
      ensures
        match P.Issue(old(View()), g, scopes, access, refresh, at)
        case Err(e) => result == Err(e) && View() == old(View())
        case Ok((s, reply)) => result == Ok(reply) && View() == s
    {
      if !Active(g, at.checked) {
        return Err(InvalidGrant);
      }
      var limit := database.grants[g].expiresAt;
      var accessExpiry := Min(at.issued + ACCESS_TTL, limit);
      database.InsertToken(access, TokenRow(Access, g, scopes, accessExpiry, None));
      database.InsertToken(refresh, TokenRow(Refresh, g, scopes, limit, None));
      result := Ok(Tokens(access, refresh, accessExpiry - at.issued, scopes));
    }

    /** The names are generated, so they are new to the tables. */
    method ExchangeAuthorizationCode(clientId: ClientId, c: CodeId, names: P.Fresh, now: Time, later: P.Readings)
      returns (result: Result<Tokens, OAuthError>)
      requires database.saved.None? && names.grant !in database.grants
      requires names.access !in database.tokens && names.refresh !in database.tokens && names.access != names.refresh
      modifies codeStore, database
      ensures (View(), result) == P.ExchangeCode(old(View()), clientId, c, names, now, later) && database.saved.None?
    {
      var code := codeStore.Consume(c, clientId, now);
      if code.None? || code.value.params.resource != resource {
        return Err(InvalidGrant);
      }
      var session := code.value.session;
      var expiry := TokenExpiry(session.refresh, RefreshClaim);
      if expiry.None? || expiry.value <= now || session.userId == "" || session.workspaceId == "" ||
        session.userId != code.value.subject {
        return Err(InvalidGrant);
      }
      ghost var consumed := View();
      database.Begin();
      database.InsertGrant(names.grant, Grant(clientId, resource, code.value.subject, session.workspaceId, session,
                                              Min(now + grantTtl, expiry.value), None, false));
      assert View() == consumed.(grants := consumed.grants[names.grant := P.NewGrant(consumed, code.value, now)]);
      result := Issue(names.grant, code.value.params.scopes, names.access, names.refresh, later);
      if result.Err? {
        database.Rollback();
      } else {
        database.Commit();
      }
    }

    /** The joined look-up of `_token`. */
    function FindToken(t: Token, kind: TokenKind, now: Time): (info: Option<TokenInfo>)
      reads this, database
      ensures info == P.FindToken(View(), t, kind, now)
    {
      if t in database.tokens && database.tokens[t].kind == kind && database.tokens[t].expiresAt > now &&
        Active(database.tokens[t].grantId, now)
      then
        var row := database.tokens[t];
        var grant := database.grants[row.grantId];
        Some(TokenInfo(grant.clientId, grant.subject, row.scopes, row.expiresAt, row.grantId, row.consumedAt.Some?))
      else None
    }

    method LoadAccessToken(t: Token, now: Time) returns (info: Option<TokenInfo>)
      requires database.saved.None?
      modifies this, authorizationStore, loginStore, codeStore, database
      ensures (View(), info) == P.LoadAccess(old(View()), t, now) && database.saved.None?
    {
      Cleanup(now);
      info := FindToken(t, Access, now);
    }

    method LoadRefreshToken(clientId: ClientId, t: Token, now: Time) returns (info: Option<TokenInfo>)
      requires database.saved.None?
      modifies this, authorizationStore, loginStore, codeStore, database
      ensures (View(), info) == P.LoadRefresh(old(View()), clientId, t, now) && database.saved.None?
    {
      Cleanup(now);
      info := FindToken(t, Refresh, now);
      if info.Some? && info.value.clientId == clientId {
        if info.value.consumed {
          RevokeGrant(info.value.grantId, now);
          return None;
        }
        return info;
      }
      info := None;
    }

    method ExchangeRefreshToken(clientId: ClientId, t: Token, scopes: set<Scope>, access: Token, refresh: Token,
            now: Time, later: P.Readings)
      returns (result: Result<Tokens, OAuthError>)
      requires database.saved.None? && access !in database.tokens && refresh !in database.tokens && access != refresh
      modifies database
      ensures (View(), result) == P.ExchangeRefresh(old(View()), clientId, t, scopes, access, refresh, now, later) &&
        database.saved.None?
    {
      var reused := false;
      result := Err(InvalidGrant);
      database.Begin();
      var row := FindToken(t, Refresh, now);
      if row.None? || row.value.clientId != clientId {
        database.Rollback();
        return;
      }
      if row.value.consumed {
        RevokeGrant(row.value.grantId, now);
        reused := true;
      } else {
        if !(scopes <= row.value.scopes) {
          database.Rollback();
          return Err(InvalidScope);
        }
        database.MarkConsumed(t, now);
        assert View() == P.Consume(old(View()), t, now);
        result := Issue(row.value.grantId, scopes, access, refresh, later);
        if result.Err? {
          database.Rollback();
          return;
        }
      }
      database.Commit();
      if reused {
        // By now the revocation is committed: the error cannot take it back.
        return Err(InvalidGrant);
      }
    }

    /** The revocation endpoint, then `revoke_token`. */
    method RevokeToken(clientId: ClientId, t: Token, now: Time)
      requires database.saved.None?
      modifies this, authorizationStore, loginStore, codeStore, database
      ensures View() == P.RevokeToken(old(View()), clientId, t, now) && database.saved.None?
    {
      var token := LoadAccessToken(t, now);
      if token.None? {
        token := LoadRefreshToken(clientId, t, now);
      }
      if token.Some? && token.value.clientId == clientId {
        RevokeGrant(token.value.grantId, now);
      }
    }

    /** The approval handler once origin, cookie and CSRF checks have passed. */
    method Approve(r: RequestId, loginId: Option<LoginId>, verdict: Verdict, c: CodeId, now: Time)
      returns (decided: Decided)
      modifies authorizationStore, loginStore, codeStore
      ensures (View(), decided) == P.Decide(old(View()), r, loginId, verdict, c, now)
    {
      var pending := authorizationStore.Get(r, now);
      if pending.None? {
        return RequestExpired;
      }
      var login := None;
      if loginId.Some? {
        login := loginStore.Get(loginId.value, now);
      }
      if login.None? {
        return LoginRequired;
      }
      if verdict == Unreadable {
        return InvalidDecision;
      }
      pending := authorizationStore.Consume(r, now);
      if pending.None? {
        return RequestExpired;
      }
      if verdict == Deny {
        decided := Denied;
      } else {
        codeStore.Create(pending.value.clientId, pending.value.params, login.value.userId, login.value.session, c, now);
        decided := Approved(c);
      }
      loginStore.Pop(loginId.value);
    }

    /** The login handler once the upstream has authenticated the user. */
    method FinishLogin(previous: Option<LoginId>, session: RelaySession, l: LoginId, now: Time)
      modifies loginStore
      ensures View() == P.SaveLogin(old(View()), previous, session, l, now)
    {
      if previous.Some? {
        loginStore.Pop(previous.value);
      }
      loginStore.Save(session, l, now);
    }
  }
}
