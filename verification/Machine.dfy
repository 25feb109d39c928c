/** The provider as a state machine: every request any party may make, in any order.

    The history beside the state records what happened so that properties of whole runs can be
    stated; no operation reads it.
  */
module Machine {
  import opened Basics
  import opened OAuthTypes
  import P = ProviderModel

  datatype Op =
    | Wait(until: Time)
    | Register(clientId: ClientId, registration: Registration)
    | Authorize(clientId: ClientId, req: AuthorizationRequest, r: RequestId)
    | ShowRequest(r: RequestId)
    | ShowLogin(l: LoginId)
    | SaveLogin(previous: Option<LoginId>, session: RelaySession, l: LoginId)
    | DropLogin(l: LoginId)
    | Decide(r: RequestId, login: Option<LoginId>, verdict: Verdict, c: CodeId)
    | ShowCode(c: CodeId, clientId: ClientId)
    | ExchangeCode(clientId: ClientId, c: CodeId, names: P.Fresh, later: P.Readings)
    | LoadAccess(t: Token)
    | LoadRefresh(clientId: ClientId, t: Token)
    | ExchangeRefresh(clientId: ClientId, t: Token, scopes: set<Scope>, access: Token, refresh: Token,
      later: P.Readings)
    | RevokeToken(clientId: ClientId, t: Token)
    | RevokeGrant(g: GrantId)
    | LoadSession(g: GrantId)
    | BeginRefresh(g: GrantId)
    | SaveSession(g: GrantId, session: RelaySession)
    | Cleanup
    | Restart(grantTtl: int)

  datatype Answer =
    | Done
    | Flag(ok: bool)
    | Registered(client: Result<ClientId, RegistrationError>)
    | RequestCreated(request: Result<RequestId, OAuthError>)
    | RequestShown(pending: Option<Pending>)
    | LoginShown(login: Option<Login>)
    | DecidedAs(decided: Decided)
    | CodeShown(code: Option<Code>)
    | Issued(tokens: Result<Tokens, OAuthError>)
    | TokenShown(info: Option<TokenInfo>)
    | SessionShown(session: Option<RelaySession>)

  function Perform(s: Server, op: Op, now: Time): (Server, Answer) {
    match op
    case Wait(_) => (s, Done)
    case Register(clientId, registration) => var (s', a) := P.Register(s, clientId, registration); (s', Registered(a))
    case Authorize(clientId, req, r) => var (s', a) := P.Authorize(s, clientId, req, r, now); (s', RequestCreated(a))
    case ShowRequest(r) => var (s', a) := P.GetRequest(s, r, now); (s', RequestShown(a))
    case ShowLogin(l) => var (s', a) := P.GetLogin(s, l, now); (s', LoginShown(a))
    case SaveLogin(previous, session, l) => (P.SaveLogin(s, previous, session, l, now), Done)
    case DropLogin(l) => (P.DropLogin(s, Some(l)), Done)
    case Decide(r, login, verdict, c) => var (s', a) := P.Decide(s, r, login, verdict, c, now); (s', DecidedAs(a))
    case ShowCode(c, clientId) => var (s', a) := P.GetCode(P.Cleanup(s, now), c, clientId, now); (s', CodeShown(a))
    case ExchangeCode(clientId, c, names, later) =>
      var (s', a) := P.ExchangeCode(s, clientId, c, names, now, later); (s', Issued(a))
    case LoadAccess(t) => var (s', a) := P.LoadAccess(s, t, now); (s', TokenShown(a))
    case LoadRefresh(clientId, t) => var (s', a) := P.LoadRefresh(s, clientId, t, now); (s', TokenShown(a))
    case ExchangeRefresh(clientId, t, scopes, access, refresh, later) =>
      var (s', a) := P.ExchangeRefresh(s, clientId, t, scopes, access, refresh, now, later); (s', Issued(a))
    case RevokeToken(clientId, t) => (P.RevokeToken(s, clientId, t, now), Done)
    case RevokeGrant(g) => (P.RevokeGrant(s, g, now), Done)
    case LoadSession(g) => var (s', a) := P.LoadSession(s, g, now); (s', SessionShown(a))
    case BeginRefresh(g) => var (s', a) := P.BeginRefresh(s, g, now); (s', Flag(a))
    case SaveSession(g, session) => var (s', a) := P.SaveSession(s, g, session, now); (s', Flag(a))
    case Cleanup => (P.Cleanup(s, now), Done)
    case Restart(grantTtl) => (P.Restart(s, grantTtl), Done)
  }

  // --- History ---

  datatype RequestRec = RequestRec(client: ClientId, scopes: set<Scope>, at: Time)
  datatype Decision = Decision(request: RequestId, login: LoginId, code: Option<CodeId>)
  datatype CodeRec = CodeRec(request: RequestId, login: LoginId, client: ClientId, scopes: set<Scope>, subject: UserId,
    at: Time)
  datatype GrantRec = GrantRec(code: CodeId, client: ClientId, subject: UserId, workspace: WorkspaceId, at: Time,
    limit: Time)
  datatype TokenRec = TokenRec(kind: TokenKind, grant: GrantId, scopes: set<Scope>, parent: Option<Token>, at: Time)

  datatype History = History(
    used: set<nat>,                       // every random name ever generated
    requests: map<RequestId, RequestRec>, // every authorization request ever created
    logins: map<LoginId, UserId>,         // every login ever saved
    lineage: map<nat, LoginId>,           // upstream refresh credential -> the login it descends from
    decisions: seq<Decision>,
    codes: map<CodeId, CodeRec>,
    grants: map<GrantId, GrantRec>,
    issued: map<GrantId, seq<Token>>,     // refresh tokens of the grant, oldest first
    stored: map<GrantId, seq<Time>>,      // expiries of the upstream refresh credentials stored in it
    tokens: map<Token, TokenRec>,
    exchanged: seq<Token>)                // refresh tokens successfully exchanged

  datatype State = State(s: Server, h: History, now: Time)

  /** Generated names are new, clocks do not run backwards, and the upstream never hands out a
      refresh credential twice. */
  predicate Enabled(m: State, op: Op) {
    match op
    case Wait(until) => until >= m.now
    case Authorize(_, _, r) => r !in m.h.used
    case SaveLogin(_, session, l) => l !in m.h.used && session.refresh.id !in m.h.lineage
    case Decide(_, _, _, c) => c !in m.h.used
    case ExchangeCode(_, _, names, later) =>
      m.now <= later.checked <= later.issued && names.grant !in m.h.used && names.access !in m.h.used &&
        names.refresh !in m.h.used && names.access != names.refresh
    case ExchangeRefresh(_, _, _, access, refresh, later) =>
      m.now <= later.checked <= later.issued && access !in m.h.used && refresh !in m.h.used && access != refresh
    case SaveSession(_, session) => session.refresh.id !in m.h.lineage
    case Restart(grantTtl) => grantTtl > 0
    case _ => true
  }

  function NewNames(op: Op): set<nat> {
    match op
    case Authorize(_, _, r) => {r}
    case SaveLogin(_, _, l) => {l}
    case Decide(_, _, _, c) => {c}
    case ExchangeCode(_, _, names, _) => {names.grant, names.access, names.refresh}
    case ExchangeRefresh(_, _, _, access, refresh, _) => {access, refresh}
    case _ => {}
  }

  function RecordRequest(h: History, s: Server, clientId: ClientId, req: AuthorizationRequest, r: RequestId,
          now: Time): History
  {
    if clientId !in s.clients then h
    else h.(requests := h.requests[r := RequestRec(clientId, P.RequestedScopes(s.clients[clientId], req.scopes), now)])
  }

  function RecordLogin(h: History, session: RelaySession, l: LoginId): History {
    h.(logins := h.logins[l := session.userId], lineage := h.lineage[session.refresh.id := l])
  }

  function RecordedCodes(h: History, s: Server, r: RequestId, l: LoginId, code: Option<CodeId>,
          now: Time): map<CodeId, CodeRec>
  {
    if code.None? || r !in s.requests || l !in s.logins then h.codes
    else
      var pending := s.requests[r];
      h.codes[code.value := CodeRec(r, l, pending.clientId, pending.params.scopes, s.logins[l].userId, now)]
  }

  function RecordDecision(h: History, s: Server, r: RequestId, l: LoginId, code: Option<CodeId>, now: Time): History {
    h.(decisions := h.decisions + [Decision(r, l, code)], codes := RecordedCodes(h, s, r, l, code, now))
  }

  function RecordGrant(h: History, s: Server, c: CodeId, names: P.Fresh, now: Time, later: Time): History {
    if c !in s.codes then h else
    var code := s.codes[c];
    var scopes := code.params.scopes;
    var expiry := TokenExpiry(code.session.refresh, RefreshClaim);
    if expiry.None? then h
    else h.(grants := h.grants[names.grant :=
              GrantRec(c, code.clientId, code.subject, code.session.workspaceId, now, now + s.grantTtl)],
            issued := h.issued[names.grant := [names.refresh]],
            stored := h.stored[names.grant := [expiry.value]],
            tokens := h.tokens[names.access := TokenRec(Access, names.grant, scopes, None, later)]
                              [names.refresh := TokenRec(Refresh, names.grant, scopes, None, later)])
  }

  function RecordRotation(h: History, s: Server, t: Token, scopes: set<Scope>, access: Token, refresh: Token,
          later: Time): History
  {
    if t !in s.tokens || s.tokens[t].grantId !in h.issued then h else
    var g := s.tokens[t].grantId;
    h.(issued := h.issued[g := h.issued[g] + [refresh]],
       tokens := h.tokens[access := TokenRec(Access, g, scopes, Some(t), later)]
                         [refresh := TokenRec(Refresh, g, scopes, Some(t), later)],
       exchanged := h.exchanged + [t])
  }

  function RecordSave(h: History, g: GrantId, session: RelaySession, ok: bool): History {
    if g !in h.grants || h.grants[g].code !in h.codes || g !in h.stored then h else
    var h1 := h.(lineage := h.lineage[session.refresh.id := h.codes[h.grants[g].code].login]);
    var expiry := TokenExpiry(session.refresh, RefreshClaim);
    if ok && expiry.Some? then h1.(stored := h1.stored[g := h1.stored[g] + [expiry.value]]) else h1
  }

  function Record(m: State, op: Op, answer: Answer): History {
    var h := m.h.(used := m.h.used + NewNames(op));
    match (op, answer)
    case (Authorize(clientId, req, r), RequestCreated(Ok(_))) => RecordRequest(h, m.s, clientId, req, r, m.now)
    case (SaveLogin(_, session, l), _) => RecordLogin(h, session, l)
    case (Decide(r, Some(l), _, _), DecidedAs(Denied)) => RecordDecision(h, m.s, r, l, None, m.now)
    case (Decide(r, Some(l), _, _), DecidedAs(Approved(c))) => RecordDecision(h, m.s, r, l, Some(c), m.now)
    case (ExchangeCode(_, c, names, later), Issued(Ok(_))) => RecordGrant(h, m.s, c, names, m.now, later.issued)
    case (ExchangeRefresh(_, t, scopes, access, refresh, later), Issued(Ok(_))) =>
      RecordRotation(h, m.s, t, scopes, access, refresh, later.issued)
    case (SaveSession(g, session), Flag(ok)) => RecordSave(h, g, session, ok)
    case _ => h
  }

  function NextNow(op: Op, now: Time): Time {
    match op
    case Wait(until) => until
    case ExchangeCode(_, _, _, later) => later.issued
    case ExchangeRefresh(_, _, _, _, _, later) => later.issued
    case _ => now
  }

  function Do(m: State, op: Op): State
    requires Enabled(m, op)
  {
    var (s, answer) := Perform(m.s, op, m.now);
    State(s, Record(m, op, answer), NextNow(op, m.now))
  }

  /** An operation the environment cannot offer leaves the state alone. */
  function Step(m: State, op: Op): State {
    if Enabled(m, op) then Do(m, op) else m
  }

  function Run(m: State, ops: seq<Op>): State
    decreases |ops|
  {
    if ops == [] then m else Run(Step(m, ops[0]), ops[1..])
  }

  function Init(resource: Resource, grantTtl: int, now: Time): State {
    State(Server(resource, grantTtl, map[], map[], map[], map[], map[], map[], 0),
          History({}, map[], map[], map[], [], map[], map[], map[], map[], map[], []),
          now)
  }
}
