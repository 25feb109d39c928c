/** The authorization flow as a whole: an acceptable request, a login, an approval and an exchange,
    each in time, end in working tokens, whatever everybody else does in between. */
module FlowSuccess {
  import opened Basics
  import opened OAuthTypes
  import opened Machine
  import opened Invariant
  import opened Preservation
  import opened Evolution
  import opened GrantTheorems
  import opened TokenTheorems
  import opened GrantLife
  import opened FlowTheorems
  import P = ProviderModel

  // --- Decisions ---

  predicate RequestLive(s: Server, r: RequestId, now: Time) {
    r in s.requests && now < s.requests[r].expiresAt
  }

  predicate LoginLive(s: Server, login: Option<LoginId>, now: Time) {
    login.Some? && login.value in s.logins && now < s.logins[login.value].expiresAt
  }

  /** What the approval handler answers, in the order of its checks. Only an approval makes a code:
      the request's own, with the login's user and session, for 60 seconds. Request and login are
      used up by a decision and by nothing short of one. */
  lemma DecisionIs(s: Server, r: RequestId, login: Option<LoginId>, verdict: Verdict, c: CodeId, now: Time)
    ensures
      var (s', answer) := P.Decide(s, r, login, verdict, c, now);
      answer == (if !RequestLive(s, r, now) then RequestExpired
                 else if !LoginLive(s, login, now) then LoginRequired
                 else match verdict case Unreadable => InvalidDecision case Deny => Denied case Approve =>
                   Approved(c)) &&
      (answer.Denied? || answer.Approved? ==> r !in s'.requests && login.value !in s'.logins) &&
      (!answer.Denied? && !answer.Approved? ==>
         (RequestLive(s, r, now) ==> r in s'.requests && s'.requests[r] == s.requests[r]) &&
         (LoginLive(s, login, now) ==> login.value in s'.logins && s'.logins[login.value] == s.logins[login.value])) &&
      (answer.Approved? ==>
         c in s'.codes &&
         s'.codes[c] == Code(s.requests[r].clientId, s.requests[r].params, s.logins[login.value].userId,
                             s.logins[login.value].session, now + 60)) &&
      (!answer.Approved? ==> s'.codes == s.codes) &&
      s' == s.(requests := s'.requests, logins := s'.logins, codes := s'.codes)
  {
  }

  /** The login handler keeps the session it authenticated for 600 seconds and drops the previous
      login of the browser. */
  lemma LoginIsKept(s: Server, previous: Option<LoginId>, session: RelaySession, l: LoginId, now: Time)
    requires previous != Some(l)
    ensures
      var s' := Perform(s, SaveLogin(previous, session, l), now).0;
      l in s'.logins && s'.logins[l] == Login(session.userId, session, now + 600) &&
      (previous.Some? ==> previous.value !in s'.logins)
  {
  }

  // --- The whole flow ---

  /** One client's way through the flow, with what others do between its steps. */
  datatype Flow = Flow(
    clientId: ClientId, req: AuthorizationRequest, r: RequestId,
    beforeLogin: seq<Op>, previous: Option<LoginId>, session: RelaySession, l: LoginId,
    beforeDecision: seq<Op>, c: CodeId,
    beforeExchange: seq<Op>, names: P.Fresh, later: P.Readings)

  function LoggingIn(f: Flow): Op { SaveLogin(f.previous, f.session, f.l) }

  function Authorization(f: Flow): Op { Authorize(f.clientId, f.req, f.r) }

  function Approval(f: Flow): Op { Decide(f.r, Some(f.l), Approve, f.c) }

  function Exchange(f: Flow): Op { ExchangeCode(f.clientId, f.c, f.names, f.later) }

  function AtLogin(m: State, f: Flow): State { Run(Step(m, Authorization(f)), f.beforeLogin) }

  function AtDecision(m: State, f: Flow): State { Run(Step(AtLogin(m, f), LoggingIn(f)), f.beforeDecision) }

  function AtExchange(m: State, f: Flow): State { Run(Step(AtDecision(m, f), Approval(f)), f.beforeExchange) }

  /** The names are new, and nobody decides the request, takes the login away or restarts the
      server, nor does the client itself spend the code before. */
  ghost predicate Undisturbed(m: State, f: Flow) {
    Enabled(m, Authorization(f)) && Enabled(AtLogin(m, f), LoggingIn(f)) && Enabled(AtDecision(m, f), Approval(f)) &&
    Enabled(AtExchange(m, f), Exchange(f)) && f.previous != Some(f.l) &&
    (forall i :: 0 <= i < |f.beforeLogin| ==> LeavesRequest(f.beforeLogin[i], f.r)) &&
    (forall i :: 0 <= i < |f.beforeDecision| ==>
       LeavesRequest(f.beforeDecision[i], f.r) && LeavesLogin(f.beforeDecision[i], f.l)) &&
    (forall i :: 0 <= i < |f.beforeExchange| ==> LeavesCode(f.beforeExchange[i], f.c, f.clientId))
  }

  predicate InTime(m: State, f: Flow) {
    AtDecision(m, f).now < m.now + 300 && AtDecision(m, f).now < AtLogin(m, f).now + 600 &&
    AtExchange(m, f).now < AtDecision(m, f).now + 60
  }

  /** The upstream login is one a grant can be made of. */
  predicate Delegable(m: State, f: Flow) {
    var at := AtExchange(m, f);
    f.session.userId != "" && f.session.workspaceId != "" && Usable(f.session.refresh, at.now) &&
    f.later.checked < at.now + at.s.grantTtl && f.later.checked < f.session.refresh.claims.value.exp
  }

  /** At the decision the request and the login are as they were made. */
  lemma ReachesDecision(m: State, f: Flow)
    requires Inv(m) && Acceptable(m.s, f.clientId, f.req) && Undisturbed(m, f) && InTime(m, f)
    ensures
      var m' := AtDecision(m, f);
      Inv(m') && m'.s.resource == m.s.resource && RequestLive(m'.s, f.r, m'.now) &&
        LoginLive(m'.s, Some(f.l), m'.now) &&
      m'.s.logins[f.l].userId == f.session.userId && m'.s.logins[f.l].session == f.session &&
      m'.s.requests[f.r].clientId == f.clientId && m'.s.requests[f.r].params.resource == m.s.resource &&
      f.clientId in m.s.clients && Consents(m.s.clients[f.clientId], f.req.scopes, m'.s.requests[f.r].params.scopes)
  {
    assert LeavesRequest(LoggingIn(f), f.r) && f.clientId in m.s.clients && f.req.resource == m.s.resource;
    hide Inv, Perform, Record, Enabled, Consents, LeavesRequest, LeavesLogin, LeavesCode, Acceptable;
    var m1, m2 := Step(m, Authorization(f)), AtLogin(m, f);
    var m3 := Step(m2, LoggingIn(f));
    AuthorizesIff(m.s, f.clientId, f.req, f.r, m.now);
    StepKeeps(m, Authorization(f));
    RunKeeps(m1, f.beforeLogin);
    StepKeeps(m2, LoggingIn(f));
    RunKeeps(m3, f.beforeDecision);
    RunGrows(m1, f.beforeLogin);
    StepGrows(m2, LoggingIn(f));
    RunGrows(m3, f.beforeDecision);
    RequestWaits(m1, f.beforeLogin, f.r);
    PerformStores(m2.s, LoggingIn(f), m2.now);
    LoginIsKept(m2.s, f.previous, f.session, f.l, m2.now);
    RequestWaits(m3, f.beforeDecision, f.r);
    LoginWaits(m3, f.beforeDecision, f.l);
    PerformClients(m.s, Authorization(f), m.now);
    ClientsStay(m1, f.beforeLogin, f.clientId);
    PerformClients(m2.s, LoggingIn(f), m2.now);
    ClientsStay(m3, f.beforeDecision, f.clientId);
  }

  /** At the exchange the code is the one the approval made. */
  lemma ReachesExchange(m: State, f: Flow)
    requires Inv(m) && Acceptable(m.s, f.clientId, f.req) && Undisturbed(m, f) && InTime(m, f)
    ensures
      var m' := AtExchange(m, f);
      Inv(m') && m'.s.resource == m.s.resource && f.c in m'.s.codes && m'.now < m'.s.codes[f.c].expiresAt &&
      var code := m'.s.codes[f.c];
      code.clientId == f.clientId && code.params.resource == m.s.resource && code.session == f.session &&
      code.subject == f.session.userId &&
      f.clientId in m.s.clients && Consents(m.s.clients[f.clientId], f.req.scopes, code.params.scopes)
  {
    ReachesDecision(m, f);
    var m3 := AtDecision(m, f);
    var m4 := Step(m3, Approval(f));
    DecisionIs(m3.s, f.r, Some(f.l), Approve, f.c, m3.now);
    hide Inv, P.Decide, Record, Consents, LeavesRequest, LeavesLogin, LeavesCode, Acceptable, AtDecision;
    StepKeeps(m3, Approval(f));
    RunKeeps(m4, f.beforeExchange);
    CodeWaits(m4, f.beforeExchange, f.c);
    ResourceStays(m4, f.beforeExchange);
  }

  lemma {:induction false} ResourceStays(m: State, ops: seq<Op>)
    ensures Run(m, ops).s.resource == m.s.resource
    decreases |ops|
  {
    hide Perform, Record, Enabled;
    if ops != [] {
      PerformClients(m.s, ops[0], m.now);
      ResourceStays(Step(m, ops[0]), ops[1..]);
    }
  }

  /** Whatever happens in between, the flow succeeds: its client gets a working pair of tokens for a
      new grant of the user who logged in, holding the session of that login and exactly the scopes
      consented to. */
  lemma FlowSucceeds(m: State, f: Flow)
    requires Reachable(m) && Acceptable(m.s, f.clientId, f.req)
    requires Undisturbed(m, f) && InTime(m, f) && Delegable(m, f)
    ensures
      var at := AtExchange(m, f);
      CreatesGrant(at, Exchange(f)) &&
      var (m', reply) := (Do(at, Exchange(f)), Perform(at.s, Exchange(f), at.now).1.tokens.value);
      f.names.grant in m'.s.grants &&
      var grant := m'.s.grants[f.names.grant];
      grant.clientId == f.clientId && grant.subject == f.session.userId && grant.session == f.session &&
      Consents(m.s.clients[f.clientId], f.req.scopes, reply.scopes) &&
      Works(m'.s, reply, f.names.grant, grant, reply.scopes, f.later.issued)
  {
    ReachableInv(m);
    ReachesExchange(m, f);
    hide Inv, Undisturbed, InTime, Acceptable, Consents, Works, AtExchange, Perform, Record;
    var at := AtExchange(m, f);
    ExchangeReachable(m, f);
    assert Enabled(at, Exchange(f)) by { EnabledAtExchange(m, f); }
    CodeSucceedsIff(at, Exchange(f));
    hide CreatesGrant, Reachable, Do;
    CodeHandsOutTokens(at, Exchange(f));
  }

  lemma EnabledAtExchange(m: State, f: Flow)
    requires Undisturbed(m, f)
    ensures Enabled(AtExchange(m, f), Exchange(f))
  {
  }

  lemma ExchangeReachable(m: State, f: Flow)
    requires Reachable(m)
    ensures Reachable(AtExchange(m, f))
  {
    hide Reachable, Step, Run;
    StepIsReachable(m, Authorization(f));
    RunIsReachable(Step(m, Authorization(f)), f.beforeLogin);
    StepIsReachable(AtLogin(m, f), LoggingIn(f));
    RunIsReachable(Step(AtLogin(m, f), LoggingIn(f)), f.beforeDecision);
    StepIsReachable(AtDecision(m, f), Approval(f));
    RunIsReachable(Step(AtDecision(m, f), Approval(f)), f.beforeExchange);
  }
}
