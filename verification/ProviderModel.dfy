/** What each provider operation does, as a function of the state before it and the clock.

    The classes in `Stores.dfy` and `Provider.dfy` compute these functions by updating their
    fields step by step; the lemmas of the other modules are about these functions.
  */
module ProviderModel {
  import opened Basics
  import opened OAuthTypes

  // --- Expiring stores ---

  function LiveRequests(requests: map<RequestId, Pending>, now: Time): map<RequestId, Pending> {
    map r | r in requests && requests[r].expiresAt > now :: requests[r]
  }

  function LiveLogins(logins: map<LoginId, Login>, now: Time): map<LoginId, Login> {
    map l | l in logins && logins[l].expiresAt > now :: logins[l]
  }

  function LiveCodes(codes: map<CodeId, Code>, now: Time): map<CodeId, Code> {
    map c | c in codes && codes[c].expiresAt > now :: codes[c]
  }

  function LiveGrants(grants: map<GrantId, Grant>, now: Time): map<GrantId, Grant> {
    map g | g in grants && grants[g].expiresAt > now :: grants[g]
  }

  /** The rows left by a cleanup: deleting a grant cascades to its tokens, and only access
      tokens are deleted for their own expiry. */
  function LiveTokens(tokens: map<Token, TokenRow>, grants: map<GrantId, Grant>, now: Time): map<Token, TokenRow> {
    map t | t in tokens && tokens[t].grantId in LiveGrants(grants, now)
            && (tokens[t].kind == Access ==> tokens[t].expiresAt > now) :: tokens[t]
  }

  function Without<K, V>(m: map<K, V>, k: K): map<K, V> {
    map x | x in m && x != k :: m[x]
  }

  function Cleanup(s: Server, now: Time): Server {
    var s1 := s.(requests := LiveRequests(s.requests, now), codes := LiveCodes(s.codes, now),
      logins := LiveLogins(s.logins, now));
    if now >= s.nextCleanup
    then s1.(grants := LiveGrants(s.grants, now), tokens := LiveTokens(s.tokens, s.grants, now),
      nextCleanup := now + CLEANUP_INTERVAL)
    else s1
  }

  // --- Authorization requests, logins, codes ---

  /** `AuthorizationStore.get`: an expired request is dropped on the way. */
  function GetRequest(s: Server, r: RequestId, now: Time): (Server, Option<Pending>) {
    if r !in s.requests then (s, None)
    else if s.requests[r].expiresAt <= now then (s.(requests := Without(s.requests, r)), None)
    else (s, Some(s.requests[r]))
  }

  function ConsumeRequest(s: Server, r: RequestId, now: Time): (Server, Option<Pending>) {
    (s.(requests := Without(s.requests, r)),
     if r in s.requests && s.requests[r].expiresAt > now then Some(s.requests[r]) else None)
  }

  function GetLogin(s: Server, l: LoginId, now: Time): (Server, Option<Login>) {
    if l !in s.logins then (s, None)
    else if s.logins[l].expiresAt <= now then (s.(logins := Without(s.logins, l)), None)
    else (s, Some(s.logins[l]))
  }

  function DropLogin(s: Server, l: Option<LoginId>): Server {
    if l.Some? then s.(logins := Without(s.logins, l.value)) else s
  }

  /** The login handler once the upstream has authenticated the user. */
  function SaveLogin(s: Server, previous: Option<LoginId>, session: RelaySession, l: LoginId, now: Time): Server {
    var logins := LiveLogins(DropLogin(s, previous).logins, now);
    s.(logins := logins[l := Login(session.userId, session, now + LOGIN_TTL)])
  }

  function CreateCode(s: Server, clientId: ClientId, params: Params, login: Login, c: CodeId, now: Time): Server {
    s.(codes := LiveCodes(s.codes, now)[c := Code(clientId, params, login.userId, login.session, now + CODE_TTL)])
  }

  function GetCode(s: Server, c: CodeId, clientId: ClientId, now: Time): (Server, Option<Code>) {
    var s1 := s.(codes := LiveCodes(s.codes, now));
    (s1, if c in s1.codes && s1.codes[c].clientId == clientId then Some(s1.codes[c]) else None)
  }

  function ConsumeCode(s: Server, c: CodeId, clientId: ClientId, now: Time): (Server, Option<Code>) {
    var (s1, found) := GetCode(s, c, clientId, now);
    (if found.Some? then s1.(codes := Without(s1.codes, c)) else s1, found)
  }

  /** Secure, or plain to the loopback interface, and nothing but an address. */
  predicate SafeRedirect(uri: RedirectUri) {
    uri.fragment == "" && uri.username == "" && uri.password == "" &&
    (uri.scheme == "https" || (uri.scheme == "http" && uri.host in LOOPBACK_HOSTS))
  }

  function UriTexts(uris: seq<RedirectUri>): set<string> {
    set i | 0 <= i < |uris| :: uris[i].text
  }

  function Register(s: Server, clientId: ClientId, reg: Registration): (Server, Result<ClientId, RegistrationError>) {
    if clientId in s.clients || reg.redirectUris == [] || reg.grantTypes - GRANT_TYPES != {}
      then (s, Err(InvalidClientMetadata))
    else if exists i :: 0 <= i < |reg.redirectUris| && !SafeRedirect(reg.redirectUris[i])
      then (s, Err(InvalidRedirectUri))
    else (s.(clients := s.clients[clientId := Client(reg.scopes, UriTexts(reg.redirectUris))]), Ok(clientId))
  }

  predicate ValidChallenge(challenge: string) {
    |challenge| == 43 &&
    forall i :: 0 <= i < |challenge| ==>
                  var ch := challenge[i];
                  'A' <= ch <= 'Z' || 'a' <= ch <= 'z' || '0' <= ch <= '9' || ch == '_' || ch == '-'
  }

  function RequestedScopes(client: Client, asked: Option<set<Scope>>): set<Scope> {
    if asked.Some? then asked.value
    else if "relay:read" in client.scopes then {"relay:read"} else {}
  }

  function Authorize(s: Server, clientId: ClientId, req: AuthorizationRequest, r: RequestId,
          now: Time): (Server, Result<RequestId, OAuthError>)
  {
    if clientId !in s.clients then (s, Err(InvalidClient)) else
    var client := s.clients[clientId];
    var s1 := Cleanup(s, now);
    var scopes := RequestedScopes(client, req.scopes);
    if !(scopes <= SCOPES * client.scopes) then (s1, Err(InvalidScope))
    else if req.redirectUri !in client.redirectUris then (s1, Err(InvalidRequest))
    else if !ValidChallenge(req.challenge) then (s1, Err(InvalidRequest))
    else if req.resource != s.resource then (s1, Err(InvalidTarget))
    else
      var pending := Pending(clientId, Params(scopes, req.redirectUri, req.challenge, req.resource), now + REQUEST_TTL);
      (s1.(requests := LiveRequests(s1.requests, now)[r := pending]), Ok(r))
  }

  /** The approval handler after its browser checks: one uninterrupted step. */
  function Decide(s: Server, r: RequestId, loginId: Option<LoginId>, verdict: Verdict, c: CodeId,
          now: Time): (Server, Decided)
  {
    var (s1, shown) := GetRequest(s, r, now);
    if shown.None? then (s1, RequestExpired) else
    var (s2, login) := if loginId.Some? then GetLogin(s1, loginId.value, now) else (s1, None);
    if login.None? then (s2, LoginRequired)
    else if verdict == Unreadable then (s2, InvalidDecision)
    else
      var (s3, pending) := ConsumeRequest(s2, r, now);
      if pending.None? then (s3, RequestExpired)
      else if verdict == Deny then (DropLogin(s3, loginId), Denied)
      else (DropLogin(CreateCode(s3, pending.value.clientId, pending.value.params, login.value, c, now), loginId),
        Approved(c))
  }

  // --- Grants ---

  /** The condition of `_grant`: stored for this resource, not revoked, not expired. */
  predicate Active(s: Server, g: GrantId, now: Time) {
    g in s.grants && s.grants[g].resource == s.resource && s.grants[g].revokedAt.None? && s.grants[g].expiresAt > now
  }

  function RevokeGrant(s: Server, g: GrantId, now: Time): Server {
    if g in s.grants && s.grants[g].revokedAt.None?
    then s.(grants := s.grants[g := s.grants[g].(revokedAt := Some(now))])
    else s
  }

  /** `load_session`: an error asks the user to authorize again. */
  function LoadSession(s: Server, g: GrantId, now: Time): (Server, Option<RelaySession>) {
    if !Active(s, g, now) then (s, None)
    else if s.grants[g].refreshPending then (RevokeGrant(s, g, now), None)
    else
      var session := s.grants[g].session;
      if session.userId != s.grants[g].subject || session.workspaceId != s.grants[g].workspaceId
      then (RevokeGrant(s, g, now), None)
      else (s, Some(session))
  }

  predicate CanBeginRefresh(s: Server, g: GrantId, now: Time) {
    g in s.grants && s.grants[g].revokedAt.None? && s.grants[g].expiresAt > now && !s.grants[g].refreshPending
  }

  function BeginRefresh(s: Server, g: GrantId, now: Time): (Server, bool) {
    if CanBeginRefresh(s, g, now)
    then (s.(grants := s.grants[g := s.grants[g].(refreshPending := true)]), true)
    else (s, false)
  }

  predicate CanSave(s: Server, g: GrantId, session: RelaySession, now: Time) {
    g in s.grants && s.grants[g].subject == session.userId && s.grants[g].workspaceId == session.workspaceId &&
    s.grants[g].revokedAt.None? && s.grants[g].expiresAt > now
  }

  function SaveSession(s: Server, g: GrantId, session: RelaySession, now: Time): (Server, bool) {
    var expiry := TokenExpiry(session.refresh, RefreshClaim);
    if expiry.None? || expiry.value <= now then (RevokeGrant(s, g, now), false)
    else if CanSave(s, g, session, now) then
      var row := s.grants[g].(session := session, refreshPending := false,
        expiresAt := Min(s.grants[g].expiresAt, expiry.value));
      (s.(grants := s.grants[g := row]), true)
    else (s, false)
  }

  // --- Tokens ---

  /** The query of `_token`: an unexpired row of the kind whose grant is active. */
  function FindToken(s: Server, t: Token, kind: TokenKind, now: Time): Option<TokenInfo> {
    if t in s.tokens && s.tokens[t].kind == kind && s.tokens[t].expiresAt > now && Active(s, s.tokens[t].grantId, now)
    then
      var row := s.tokens[t];
      var grant := s.grants[row.grantId];
      Some(TokenInfo(grant.clientId, grant.subject, row.scopes, row.expiresAt, row.grantId, row.consumedAt.Some?))
    else None
  }

  function LoadAccess(s: Server, t: Token, now: Time): (Server, Option<TokenInfo>) {
    var s1 := Cleanup(s, now);
    (s1, FindToken(s1, t, Access, now))
  }

  function LoadRefresh(s: Server, clientId: ClientId, t: Token, now: Time): (Server, Option<TokenInfo>) {
    var s1 := Cleanup(s, now);
    var found := FindToken(s1, t, Refresh, now);
    if found.None? || found.value.clientId != clientId then (s1, None)
    else if found.value.consumed then (RevokeGrant(s1, found.value.grantId, now), None)
    else (s1, found)
  }

  /** The two clock readings of `_issue`: one to check the grant, one to date its tokens. */
  datatype Readings = Readings(checked: Time, issued: Time)

  /** `_issue`: two rows for the grant, or an error when the grant is not active. */
  function Issue(s: Server, g: GrantId, scopes: set<Scope>, access: Token, refresh: Token,
          at: Readings): Result<(Server, Tokens), OAuthError>
  {
    if !Active(s, g, at.checked) then Err(InvalidGrant) else
    var limit := s.grants[g].expiresAt;
    var accessRow := TokenRow(Access, g, scopes, Min(at.issued + ACCESS_TTL, limit), None);
    var refreshRow := TokenRow(Refresh, g, scopes, limit, None);
    Ok((s.(tokens := s.tokens[access := accessRow][refresh := refreshRow]),
        Tokens(access, refresh, accessRow.expiresAt - at.issued, scopes)))
  }

  /** The names a successful exchange generates. */
  datatype Fresh = Fresh(grant: GrantId, access: Token, refresh: Token)

  predicate Exchangeable(s: Server, code: Code, now: Time) {
    var expiry := TokenExpiry(code.session.refresh, RefreshClaim);
    code.params.resource == s.resource && expiry.Some? && expiry.value > now &&
    code.session.userId != "" && code.session.workspaceId != "" && code.session.userId == code.subject
  }

  function NewGrant(s: Server, code: Code, now: Time): Grant {
    var expiry := TokenExpiry(code.session.refresh, RefreshClaim);
    var limit := now + s.grantTtl;
    Grant(code.clientId, s.resource, code.subject, code.session.workspaceId, code.session,
          if expiry.Some? then Min(limit, expiry.value) else limit, None, false)
  }

  /** `exchange_authorization_code`. The clock reads `now` for the code and the new grant and
      those of `later` inside `_issue`; an error there rolls the grant back, the code stays consumed. */
  function ExchangeCode(s: Server, clientId: ClientId, c: CodeId, names: Fresh, now: Time,
          later: Readings): (Server, Result<Tokens, OAuthError>)
  {
    var (s1, code) := ConsumeCode(s, c, clientId, now);
    if code.None? || !Exchangeable(s, code.value, now) then (s1, Err(InvalidGrant)) else
    var s2 := s1.(grants := s1.grants[names.grant := NewGrant(s1, code.value, now)]);
    match Issue(s2, names.grant, code.value.params.scopes, names.access, names.refresh, later)
    case Err(e) => (s1, Err(e))
    case Ok((s3, reply)) => (s3, Ok(reply))
  }

  function Consume(s: Server, t: Token, now: Time): Server
    requires t in s.tokens
  {
    s.(tokens := s.tokens[t := s.tokens[t].(consumedAt := Some(now))])
  }

  /** `exchange_refresh_token`: the look-up reads `now`, `_issue` those of `later`. */
  function ExchangeRefresh(s: Server, clientId: ClientId, t: Token, scopes: set<Scope>, access: Token, refresh: Token,
          now: Time, later: Readings): (Server, Result<Tokens, OAuthError>)
  {
    var found := FindToken(s, t, Refresh, now);
    if found.None? || found.value.clientId != clientId then (s, Err(InvalidGrant))
    else if found.value.consumed then (RevokeGrant(s, found.value.grantId, now), Err(InvalidGrant))
    else if !(scopes <= found.value.scopes) then (s, Err(InvalidScope))
    else
      match Issue(Consume(s, t, now), found.value.grantId, scopes, access, refresh, later)
      case Err(e) => (s, Err(e))
      case Ok((s1, reply)) => (s1, Ok(reply))
  }

  /** The revocation endpoint: look the token up either way, then revoke its family. */
  function RevokeToken(s: Server, clientId: ClientId, t: Token, now: Time): Server {
    var (s1, access) := LoadAccess(s, t, now);
    var (s2, token) := if access.Some? then (s1, access) else LoadRefresh(s1, clientId, t, now);
    if token.Some? && token.value.clientId == clientId then RevokeGrant(s2, token.value.grantId, now) else s2
  }

  /** A restart keeps the database and loses every store; the grant lifetime is read anew. */
  function Restart(s: Server, grantTtl: int): Server {
    s.(grantTtl := grantTtl, requests := map[], logins := map[], codes := map[], nextCleanup := 0)
  }
}
