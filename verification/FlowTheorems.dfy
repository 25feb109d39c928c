/** The authorization flow from its success: which registrations, requests and decisions are
    accepted, what each leaves for the next step, and that nobody else can get in its way. */
module FlowTheorems {
  import opened Basics
  import opened OAuthTypes
  import opened Machine
  import opened Invariant
  import opened Preservation
  import opened Evolution
  import opened GrantTheorems
  import opened GrantLife
  import H = Housekeeping
  import P = ProviderModel

  // --- Registration ---

  /** HTTPS, or plain HTTP to the machine the browser runs on; neither user info nor fragment. */
  predicate MayRedirectTo(uri: RedirectUri) {
    uri.username == "" && uri.password == "" && uri.fragment == "" &&
    match uri.scheme
    case "https" => true
    case "http" => uri.host == "localhost" || uri.host == "127.0.0.1" || uri.host == "[::1]"
    case _ => false
  }

  /** Registration succeeds exactly for a new id, the two grant types the server has and at least
      one redirect URI, every one of them allowed; the client then has those URIs and scopes. */
  lemma RegistersIff(m: State, clientId: ClientId, reg: Registration)
    requires Reachable(m)
    ensures
      var (s', answer) := Perform(m.s, Register(clientId, reg), m.now);
      answer.Registered? &&
      (answer.client == Ok(clientId) <==>
         clientId !in m.s.clients && reg.redirectUris != [] &&
         (forall grantType :: grantType in reg.grantTypes ==>
            grantType == "authorization_code" || grantType == "refresh_token") &&
         forall uri :: uri in reg.redirectUris ==> MayRedirectTo(uri)) &&
      (answer.client.Err? ==>
         s' == m.s &&
         answer.client.error ==
           if clientId in m.s.clients || reg.redirectUris == [] ||
             !(reg.grantTypes <= {"authorization_code", "refresh_token"})
           then InvalidClientMetadata else InvalidRedirectUri) &&
      (answer.client.Ok? ==>
         s' == m.s.(clients := s'.clients) && s'.clients == m.s.clients[clientId := s'.clients[clientId]] &&
         s'.clients[clientId].scopes == reg.scopes &&
         forall text ::
           text in s'.clients[clientId].redirectUris <==> exists uri :: uri in reg.redirectUris && uri.text == text)
  {
    assert reg.grantTypes - GRANT_TYPES == {} <==> reg.grantTypes <= GRANT_TYPES;
    SafeIff(reg.redirectUris);
    if reg.redirectUris != [] { RegisteredTexts(reg.redirectUris); }
    hide P.SafeRedirect, MayRedirectTo, P.UriTexts, Reachable;
  }

  lemma SafeIff(uris: seq<RedirectUri>)
    ensures (exists i :: 0 <= i < |uris| && !P.SafeRedirect(uris[i])) <==>
            !(forall uri :: uri in uris ==> MayRedirectTo(uri))
  {
    forall uri ensures P.SafeRedirect(uri) <==> MayRedirectTo(uri) { }
    hide P.SafeRedirect, MayRedirectTo;
    if uri :| uri in uris && !MayRedirectTo(uri) {
      var i :| 0 <= i < |uris| && uris[i] == uri;
      assert !P.SafeRedirect(uris[i]);
    }
  }

  lemma RegisteredTexts(uris: seq<RedirectUri>)
    ensures forall text :: text in P.UriTexts(uris) <==> exists uri :: uri in uris && uri.text == text
  {
  }

  // --- Clients stay ---

  predicate SameClients(s: Server, s': Server) {
    s'.clients == s.clients && s'.resource == s.resource
  }

  lemma CleanupClients(s: Server, now: Time)
    ensures SameClients(s, P.Cleanup(s, now))
  {
  }

  lemma TokenOpClients(s: Server, clientId: ClientId, t: Token, now: Time)
    ensures SameClients(s, P.LoadRefresh(s, clientId, t, now).0) && SameClients(s, P.RevokeToken(s, clientId, t, now))
  {
    CleanupClients(s, now);
    CleanupClients(P.Cleanup(s, now), now);
    hide P.Cleanup, P.FindToken;
  }

  lemma ExchangeClients(s: Server, op: Op, now: Time)
    ensures op.ExchangeCode? ==>
      SameClients(s, P.ExchangeCode(s, op.clientId, op.c, op.names, now, op.later).0)
    ensures op.ExchangeRefresh? ==>
      SameClients(s, P.ExchangeRefresh(s, op.clientId, op.t, op.scopes, op.access, op.refresh, now, op.later).0)
  {
    hide P.FindToken, P.LiveCodes, P.Without, P.Exchangeable, P.NewGrant, P.Active;
  }

  lemma SessionOpClients(s: Server, g: GrantId, session: RelaySession, now: Time)
    ensures SameClients(s, P.LoadSession(s, g, now).0) && SameClients(s, P.BeginRefresh(s, g, now).0)
    ensures SameClients(s, P.SaveSession(s, g, session, now).0) && SameClients(s, P.RevokeGrant(s, g, now))
  {
    hide P.Active, P.CanSave;
  }

  /** Operations on tokens and grants; the others serve the flow. */
  predicate OnGrants(op: Op) {
    op.ExchangeCode? || op.ExchangeRefresh? || op.LoadRefresh? || op.RevokeToken? || op.LoadSession? ||
    op.BeginRefresh? || op.SaveSession? || op.RevokeGrant?
  }

  lemma GrantOpClients(s: Server, op: Op, now: Time)
    requires OnGrants(op)
    ensures SameClients(s, Perform(s, op, now).0)
  {
    PerformTokenOp(s, op, now);
    PerformSessionOp(s, op, now);
    hide Perform;
    match op
    case LoadRefresh(clientId, t) => TokenOpClients(s, clientId, t, now);
    case RevokeToken(clientId, t) => TokenOpClients(s, clientId, t, now);
    case LoadSession(g) => SessionOpClients(s, g, SomeSession(), now);
    case BeginRefresh(g) => SessionOpClients(s, g, SomeSession(), now);
    case SaveSession(g, session) => SessionOpClients(s, g, session, now);
    case RevokeGrant(g) => SessionOpClients(s, g, SomeSession(), now);
    case _ => ExchangeClients(s, op, now);
  }

  function SomeSession(): RelaySession {
    RelaySession(Credential(0, None), Credential(0, None), "", "")
  }

  lemma FlowOpClients(s: Server, op: Op, now: Time)
    requires !OnGrants(op)
    ensures
      var s' := Perform(s, op, now).0;
      s'.resource == s.resource && forall c :: c in s.clients ==> c in s'.clients && s'.clients[c] == s.clients[c]
  {
    CleanupClients(s, now);
    hide P.Cleanup, P.FindToken, P.ValidChallenge, P.SafeRedirect, P.UriTexts, P.LiveRequests, P.LiveCodes;
    hide P.LiveLogins, P.Without;
  }

  lemma PerformClients(s: Server, op: Op, now: Time)
    ensures
      var s' := Perform(s, op, now).0;
      s'.resource == s.resource && forall c :: c in s.clients ==> c in s'.clients && s'.clients[c] == s.clients[c]
  {
    hide Perform, OnGrants;
    if OnGrants(op) { GrantOpClients(s, op, now); } else { FlowOpClients(s, op, now); }
  }

  lemma {:induction false} ClientsStay(m: State, ops: seq<Op>, clientId: ClientId)
    requires clientId in m.s.clients
    ensures clientId in Run(m, ops).s.clients && Run(m, ops).s.clients[clientId] == m.s.clients[clientId]
    ensures Run(m, ops).s.resource == m.s.resource
    decreases |ops|
  {
    hide Perform, Record, Enabled;
    if ops != [] {
      PerformClients(m.s, ops[0], m.now);
      ClientsStay(Step(m, ops[0]), ops[1..], clientId);
    }
  }

  // --- Authorization requests ---

  /** Unpadded base64url of a SHA-256 digest (section 4.2 of RFC 7636). */
  predicate IsChallenge(challenge: string) {
    |challenge| == 43 &&
    forall ch :: ch in challenge ==>
      0x41 <= ch as int <= 0x5a || 0x61 <= ch as int <= 0x7a || 0x30 <= ch as int <= 0x39 || ch == '-' || ch == '_'
  }

  lemma ChallengeIff(challenge: string)
    ensures P.ValidChallenge(challenge) <==> IsChallenge(challenge)
  {
    if IsChallenge(challenge) {
      forall i | 0 <= i < |challenge| ensures challenge[i] in challenge { }
    }
    if P.ValidChallenge(challenge) {
      forall ch | ch in challenge
        ensures 0x41 <= ch as int <= 0x5a || 0x61 <= ch as int <= 0x7a || 0x30 <= ch as int <= 0x39 || ch == '-' ||
          ch == '_'
      {
        var i :| 0 <= i < |challenge| && challenge[i] == ch;
      }
    }
  }

  /** The scopes a request ends up with: what it asks for, and only reading when it names none. */
  ghost predicate Consents(client: Client, asked: Option<set<Scope>>, scopes: set<Scope>) {
    match asked
    case Some(named) => scopes == named
    case None => forall scope :: scope in scopes <==> scope == "relay:read" && scope in client.scopes
  }

  predicate Known(scope: Scope) {
    scope == "relay:read" || scope == "relay:write" || scope == "relay:execute" || scope == "relay:delete"
  }

  /** Every scope named is one of the four and registered. */
  ghost predicate MayAsk(client: Client, asked: Option<set<Scope>>) {
    asked.Some? ==> forall scope :: scope in asked.value ==> Known(scope) && scope in client.scopes
  }

  ghost predicate Acceptable(s: Server, clientId: ClientId, req: AuthorizationRequest) {
    clientId in s.clients && MayAsk(s.clients[clientId], req.scopes) &&
    req.redirectUri in s.clients[clientId].redirectUris && IsChallenge(req.challenge) && req.resource == s.resource
  }

  /** A request is accepted exactly when it is acceptable; for 300 seconds it can then be read back
      with the client, the scopes consented to, and the address, challenge and resource it named. */
  lemma AuthorizesIff(s: Server, clientId: ClientId, req: AuthorizationRequest, r: RequestId, now: Time)
    ensures
      var (s', answer) := Perform(s, Authorize(clientId, req, r), now);
      answer.RequestCreated? &&
      (answer.request.Ok? <==> Acceptable(s, clientId, req)) &&
      (answer.request.Err? ==>
         answer.request.error ==
           if clientId !in s.clients then InvalidClient
           else if !MayAsk(s.clients[clientId], req.scopes) then InvalidScope
           else if req.redirectUri !in s.clients[clientId].redirectUris || !IsChallenge(req.challenge)
             then InvalidRequest
           else InvalidTarget) &&
      (answer.request.Ok? ==>
         answer.request.value == r && r in s'.requests &&
         var params := s'.requests[r].params;
         Consents(s.clients[clientId], req.scopes, params.scopes) && params.redirectUri == req.redirectUri &&
         params.challenge == req.challenge && params.resource == req.resource &&
         s'.requests[r].clientId == clientId && s'.requests[r].expiresAt == now + 300)
  {
    ChallengeIff(req.challenge);
    hide P.ValidChallenge, IsChallenge, P.LiveCodes, P.LiveLogins, P.LiveGrants, P.LiveTokens, P.Cleanup;
  }

  // --- Nobody else gets in the way ---

  /** What can happen to a request other than being decided or lost in a restart. */
  predicate LeavesRequest(op: Op, r: RequestId) {
    !op.Restart? && !((op.Authorize? || op.Decide?) && op.r == r)
  }

  predicate LeavesLogin(op: Op, l: LoginId) {
    !op.Restart? && !(op.DropLogin? && op.l == l) && !(op.Decide? && op.login == Some(l)) &&
    !(op.SaveLogin? && (op.l == l || op.previous == Some(l)))
  }

  /** Another client's attempt does not spend a code. */
  predicate LeavesCode(op: Op, c: CodeId, clientId: ClientId) {
    !op.Restart? && !(op.Decide? && op.c == c) && !(op.ExchangeCode? && op.c == c && op.clientId == clientId)
  }

  ghost predicate KeepsRequests(was: map<RequestId, Pending>, now: map<RequestId, Pending>, at: Time, op: Op) {
    forall r {:trigger was[r]} ::
      r in was && at < was[r].expiresAt && LeavesRequest(op, r) ==> r in now && now[r] == was[r]
  }

  ghost predicate KeepsLogins(was: map<LoginId, Login>, now: map<LoginId, Login>, at: Time, op: Op) {
    forall l {:trigger was[l]} ::
      l in was && at < was[l].expiresAt && LeavesLogin(op, l) ==> l in now && now[l] == was[l]
  }

  ghost predicate KeepsCodes(was: map<CodeId, Code>, now: map<CodeId, Code>, at: Time, op: Op) {
    forall c {:trigger was[c]} ::
      c in was && at < was[c].expiresAt && LeavesCode(op, c, was[c].clientId) ==> c in now && now[c] == was[c]
  }

  ghost predicate KeepsStores(s: Server, s': Server, now: Time, op: Op) {
    KeepsRequests(s.requests, s'.requests, now, op) && KeepsLogins(s.logins, s'.logins, now, op) &&
    KeepsCodes(s.codes, s'.codes, now, op)
  }

  lemma SweepKeepsStores(s: Server, now: Time, op: Op)
    ensures KeepsStores(s, P.Cleanup(s, now), now, op)
  {
  }

  lemma SameKeepsStores(s: Server, s': Server, now: Time, op: Op)
    requires s'.requests == s.requests && s'.logins == s.logins && s'.codes == s.codes
    ensures KeepsStores(s, s', now, op)
  {
  }

  lemma KeepsRequestsTransitive(s: Server, s1: Server, s2: Server, now: Time, op: Op)
    requires KeepsRequests(s.requests, s1.requests, now, op) && KeepsRequests(s1.requests, s2.requests, now, op)
    ensures KeepsRequests(s.requests, s2.requests, now, op)
  {
    forall r | r in s.requests && now < s.requests[r].expiresAt && LeavesRequest(op, r)
      ensures r in s2.requests && s2.requests[r] == s.requests[r]
    {
      assert s1.requests[r] == s.requests[r];
    }
    hide LeavesRequest;
  }

  lemma KeepsLoginsTransitive(s: Server, s1: Server, s2: Server, now: Time, op: Op)
    requires KeepsLogins(s.logins, s1.logins, now, op) && KeepsLogins(s1.logins, s2.logins, now, op)
    ensures KeepsLogins(s.logins, s2.logins, now, op)
  {
    forall l | l in s.logins && now < s.logins[l].expiresAt && LeavesLogin(op, l)
      ensures l in s2.logins && s2.logins[l] == s.logins[l]
    {
      assert s1.logins[l] == s.logins[l];
    }
    hide LeavesLogin;
  }

  lemma KeepsCodesTransitive(s: Server, s1: Server, s2: Server, now: Time, op: Op)
    requires KeepsCodes(s.codes, s1.codes, now, op) && KeepsCodes(s1.codes, s2.codes, now, op)
    ensures KeepsCodes(s.codes, s2.codes, now, op)
  {
    forall c | c in s.codes && now < s.codes[c].expiresAt && LeavesCode(op, c, s.codes[c].clientId)
      ensures c in s2.codes && s2.codes[c] == s.codes[c]
    {
      assert s1.codes[c] == s.codes[c];
    }
    hide LeavesCode;
  }

  lemma KeepsStoresTransitive(s: Server, s1: Server, s2: Server, now: Time, op: Op)
    requires KeepsStores(s, s1, now, op) && KeepsStores(s1, s2, now, op)
    ensures KeepsStores(s, s2, now, op)
  {
    hide KeepsRequests, KeepsLogins, KeepsCodes;
    KeepsRequestsTransitive(s, s1, s2, now, op);
    KeepsLoginsTransitive(s, s1, s2, now, op);
    KeepsCodesTransitive(s, s1, s2, now, op);
  }

  predicate SameStores(s: Server, s': Server) {
    s'.requests == s.requests && s'.logins == s.logins && s'.codes == s.codes
  }

  lemma SessionOpStores(s: Server, g: GrantId, session: RelaySession, now: Time)
    ensures SameStores(s, P.LoadSession(s, g, now).0) && SameStores(s, P.BeginRefresh(s, g, now).0)
    ensures SameStores(s, P.SaveSession(s, g, session, now).0) && SameStores(s, P.RevokeGrant(s, g, now))
  {
    hide P.Active, P.CanSave;
  }

  lemma TokenOpStores(s: Server, clientId: ClientId, t: Token, now: Time, op: Op)
    ensures KeepsStores(s, P.LoadRefresh(s, clientId, t, now).0, now, op)
    ensures KeepsStores(s, P.RevokeToken(s, clientId, t, now), now, op)
  {
    hide *;
    var s1 := P.Cleanup(s, now);
    SweepKeepsStores(s, now, op);
    LoadedStores(s1, clientId, t, now, op);
    LoadedStores(s, clientId, t, now, op);
    KeepsStoresTransitive(s, s1, P.LoadRefresh(s1, clientId, t, now).0, now, op);
    var s2, token := H.RevocationIs(s, clientId, t, now);
    if token.Some? {
      var revoked := P.RevokeGrant(s2, token.value.grantId, now);
      RevokedStores(s2, token.value.grantId, now, op);
      KeepsStoresTransitive(s, s2, revoked, now, op);
    }
  }

  lemma RevokedStores(s: Server, g: GrantId, now: Time, op: Op)
    ensures KeepsStores(s, P.RevokeGrant(s, g, now), now, op)
  {
    SameKeepsStores(s, P.RevokeGrant(s, g, now), now, op);
    hide KeepsStores;
  }

  lemma LoadedStores(s: Server, clientId: ClientId, t: Token, now: Time, op: Op)
    ensures KeepsStores(s, P.LoadRefresh(s, clientId, t, now).0, now, op)
  {
    var s1 := P.Cleanup(s, now);
    SweepKeepsStores(s, now, op);
    var found := P.FindToken(s1, t, Refresh, now);
    if found.Some? {
      SameKeepsStores(s1, P.RevokeGrant(s1, found.value.grantId, now), now, op);
      KeepsStoresTransitive(s, s1, P.RevokeGrant(s1, found.value.grantId, now), now, op);
    }
    hide KeepsStores, P.Cleanup, P.FindToken;
  }

  lemma IssueStores(s: Server, g: GrantId, scopes: set<Scope>, access: Token, refresh: Token, at: P.Readings)
    ensures var issued := P.Issue(s, g, scopes, access, refresh, at); issued.Ok? ==> SameStores(s, issued.value.0)
  {
  }

  lemma ExchangeCodeStores(s: Server, clientId: ClientId, c: CodeId, names: P.Fresh, now: Time, later: P.Readings)
    ensures KeepsStores(s, P.ExchangeCode(s, clientId, c, names, now, later).0, now,
      ExchangeCode(clientId, c, names, later))
  {
    var op := ExchangeCode(clientId, c, names, later);
    var (s1, code) := P.ConsumeCode(s, c, clientId, now);
    ConsumeCodeStores(s, clientId, c, now, op);
    if code.Some? {
      var s2 := s1.(grants := s1.grants[names.grant := P.NewGrant(s1, code.value, now)]);
      IssueStores(s2, names.grant, code.value.params.scopes, names.access, names.refresh, later);
    }
    SameKeepsStores(s1, P.ExchangeCode(s, clientId, c, names, now, later).0, now, op) by {
      hide P.ConsumeCode, P.Issue, P.Exchangeable, P.NewGrant, KeepsStores;
    }
    hide KeepsStores, P.ExchangeCode, P.ConsumeCode;
    KeepsStoresTransitive(s, s1, P.ExchangeCode(s, clientId, c, names, now, later).0, now, op);
  }

  lemma ConsumeCodeStores(s: Server, clientId: ClientId, c: CodeId, now: Time, op: Op)
    requires op.ExchangeCode? && op.clientId == clientId && op.c == c
    ensures KeepsStores(s, P.ConsumeCode(s, c, clientId, now).0, now, op)
  {
  }

  lemma ExchangeRefreshStores(s: Server, op: Op, now: Time)
    requires op.ExchangeRefresh?
    ensures SameStores(s, P.ExchangeRefresh(s, op.clientId, op.t, op.scopes, op.access, op.refresh, now, op.later).0)
  {
    hide P.FindToken, P.Active;
  }

  lemma GrantOpStores(s: Server, op: Op, now: Time)
    requires OnGrants(op)
    ensures KeepsStores(s, Perform(s, op, now).0, now, op)
  {
    PerformTokenOp(s, op, now);
    PerformSessionOp(s, op, now);
    hide Perform, KeepsStores;
    var s' := Perform(s, op, now).0;
    if SameStores(s, s') { SameKeepsStores(s, s', now, op); }
    match op
    case LoadRefresh(clientId, t) => TokenOpStores(s, clientId, t, now, op);
    case RevokeToken(clientId, t) => TokenOpStores(s, clientId, t, now, op);
    case LoadSession(g) => SessionOpStores(s, g, SomeSession(), now);
    case BeginRefresh(g) => SessionOpStores(s, g, SomeSession(), now);
    case SaveSession(g, session) => SessionOpStores(s, g, session, now);
    case RevokeGrant(g) => SessionOpStores(s, g, SomeSession(), now);
    case ExchangeCode(clientId, c, names, later) => ExchangeCodeStores(s, clientId, c, names, now, later);
    case _ => ExchangeRefreshStores(s, op, now);
  }

  lemma AuthorizeStores(s: Server, clientId: ClientId, req: AuthorizationRequest, r: RequestId, now: Time)
    ensures KeepsStores(s, P.Authorize(s, clientId, req, r, now).0, now, Authorize(clientId, req, r))
  {
    var op := Authorize(clientId, req, r);
    var (s1, s') := (P.Cleanup(s, now), P.Authorize(s, clientId, req, r, now).0);
    SweepKeepsStores(s, now, op);
    SameKeepsStores(s, s, now, op);
    hide KeepsStores, P.Cleanup, P.ValidChallenge, P.RequestedScopes, P.LiveRequests;
    if s' != s && s' != s1 {
      AddedRequestStores(s1, s', op, now);
      KeepsStoresTransitive(s, s1, s', now, op);
    }
  }

  lemma AddedRequestStores(s: Server, s': Server, op: Op, now: Time)
    requires op.Authorize? && op.r in s'.requests
    requires s'.requests == P.LiveRequests(s.requests, now)[op.r := s'.requests[op.r]]
    requires s'.logins == s.logins && s'.codes == s.codes
    ensures KeepsStores(s, s', now, op)
  {
  }

  lemma DecideStores(s: Server, r: RequestId, login: Option<LoginId>, verdict: Verdict, c: CodeId, now: Time)
    ensures KeepsStores(s, P.Decide(s, r, login, verdict, c, now).0, now, Decide(r, login, verdict, c))
  {
    DecidedRequests(s, r, login, verdict, c, now);
    DecidedLogins(s, r, login, verdict, c, now);
    DecidedCodes(s, r, login, verdict, c, now);
    hide P.Decide, KeepsRequests, KeepsLogins, KeepsCodes;
  }

  lemma DecidedRequests(s: Server, r: RequestId, login: Option<LoginId>, verdict: Verdict, c: CodeId, now: Time)
    ensures
      var s' := P.Decide(s, r, login, verdict, c, now).0;
      s'.requests == s.requests || s'.requests == P.Without(s.requests, r)
    ensures
      KeepsRequests(s.requests, P.Decide(s, r, login, verdict, c, now).0.requests, now, Decide(r, login, verdict, c))
  {
    hide P.LiveCodes;
  }

  lemma DecidedLogins(s: Server, r: RequestId, login: Option<LoginId>, verdict: Verdict, c: CodeId, now: Time)
    ensures KeepsLogins(s.logins, P.Decide(s, r, login, verdict, c, now).0.logins, now, Decide(r, login, verdict, c))
  {
    hide P.LiveCodes;
  }

  lemma DecidedCodes(s: Server, r: RequestId, login: Option<LoginId>, verdict: Verdict, c: CodeId, now: Time)
    ensures KeepsCodes(s.codes, P.Decide(s, r, login, verdict, c, now).0.codes, now, Decide(r, login, verdict, c))
  {
    hide P.Without;
  }

  /** What the browser's steps do to the stores. */
  lemma BrowserStores(s: Server, op: Op, now: Time)
    requires op.ShowRequest? || op.ShowLogin? || op.SaveLogin? || op.DropLogin?
    ensures KeepsStores(s, Perform(s, op, now).0, now, op)
  {
  }

  lemma FlowOpStores(s: Server, op: Op, now: Time)
    requires !OnGrants(op)
    ensures KeepsStores(s, Perform(s, op, now).0, now, op)
  {
    SweepKeepsStores(s, now, op);
    SameKeepsStores(s, s, now, op);
    if op.Authorize? {
      AuthorizeStores(s, op.clientId, op.req, op.r, now);
    } else if op.Decide? {
      DecideStores(s, op.r, op.login, op.verdict, op.c, now);
    } else if op.ShowCode? {
      ShownCodeStores(s, op, now);
    } else if op.Register? {
      SameKeepsStores(s, P.Register(s, op.clientId, op.registration).0, now, op);
    } else if op.Restart? {
      LostStores(s, Perform(s, op, now).0, op, now);
    } else if !op.Wait? && !op.LoadAccess? && !op.Cleanup? {
      BrowserStores(s, op, now);
    }
    hide KeepsStores, P.Cleanup, P.Decide, P.Authorize, P.Register, P.FindToken;
  }

  lemma LostStores(s: Server, s': Server, op: Op, now: Time)
    requires op.Restart?
    ensures KeepsStores(s, s', now, op)
  {
  }

  lemma ShownCodeStores(s: Server, op: Op, now: Time)
    requires op.ShowCode?
    ensures KeepsStores(s, P.GetCode(P.Cleanup(s, now), op.c, op.clientId, now).0, now, op)
  {
    var s1 := P.Cleanup(s, now);
    SweepKeepsStores(s, now, op);
    SweptCodes(s1, op.c, op.clientId, now, op);
    hide KeepsStores, P.Cleanup, P.GetCode;
    KeepsStoresTransitive(s, s1, P.GetCode(s1, op.c, op.clientId, now).0, now, op);
  }

  lemma SweptCodes(s: Server, c: CodeId, clientId: ClientId, now: Time, op: Op)
    ensures KeepsStores(s, P.GetCode(s, c, clientId, now).0, now, op)
  {
  }

  lemma PerformStores(s: Server, op: Op, now: Time)
    ensures KeepsStores(s, Perform(s, op, now).0, now, op)
  {
    hide Perform, OnGrants, KeepsStores;
    if OnGrants(op) { GrantOpStores(s, op, now); } else { FlowOpStores(s, op, now); }
  }

  /** A request that is not decided is there, as it was made, until its 300 seconds are over. */
  lemma {:induction false} RequestWaits(m: State, ops: seq<Op>, r: RequestId)
    requires r in m.s.requests && Run(m, ops).now < m.s.requests[r].expiresAt
    requires Inv(m) && forall i :: 0 <= i < |ops| ==> LeavesRequest(ops[i], r)
    ensures r in Run(m, ops).s.requests && Run(m, ops).s.requests[r] == m.s.requests[r]
    decreases |ops|
  {
    hide Inv, LeavesRequest, Perform, Record, Enabled;
    if ops != [] {
      StepGrows(m, ops[0]);
      StepKeeps(m, ops[0]);
      RunGrows(Step(m, ops[0]), ops[1..]);
      PerformStores(m.s, ops[0], m.now);
      assert forall i :: 0 <= i < |ops[1..]| ==> ops[1..][i] == ops[i + 1];
      RequestWaits(Step(m, ops[0]), ops[1..], r);
    }
  }

  /** So is a login that is neither used nor replaced, for its 600 seconds. */
  lemma {:induction false} LoginWaits(m: State, ops: seq<Op>, l: LoginId)
    requires l in m.s.logins && Run(m, ops).now < m.s.logins[l].expiresAt
    requires Inv(m) && forall i :: 0 <= i < |ops| ==> LeavesLogin(ops[i], l)
    ensures l in Run(m, ops).s.logins && Run(m, ops).s.logins[l] == m.s.logins[l]
    decreases |ops|
  {
    hide Inv, LeavesLogin, Perform, Record, Enabled;
    if ops != [] {
      StepGrows(m, ops[0]);
      StepKeeps(m, ops[0]);
      RunGrows(Step(m, ops[0]), ops[1..]);
      PerformStores(m.s, ops[0], m.now);
      assert forall i :: 0 <= i < |ops[1..]| ==> ops[1..][i] == ops[i + 1];
      LoginWaits(Step(m, ops[0]), ops[1..], l);
    }
  }

  /** And a code that its own client has not exchanged, for its 60 seconds. */
  lemma {:induction false} CodeWaits(m: State, ops: seq<Op>, c: CodeId)
    requires c in m.s.codes && Run(m, ops).now < m.s.codes[c].expiresAt
    requires Inv(m) && forall i :: 0 <= i < |ops| ==> LeavesCode(ops[i], c, m.s.codes[c].clientId)
    ensures c in Run(m, ops).s.codes && Run(m, ops).s.codes[c] == m.s.codes[c]
    decreases |ops|
  {
    hide Inv, LeavesCode, Perform, Record, Enabled;
    if ops != [] {
      StepGrows(m, ops[0]);
      StepKeeps(m, ops[0]);
      RunGrows(Step(m, ops[0]), ops[1..]);
      PerformStores(m.s, ops[0], m.now);
      assert forall i :: 0 <= i < |ops[1..]| ==> ops[1..][i] == ops[i + 1];
      CodeWaits(Step(m, ops[0]), ops[1..], c);
    }
  }
}
